/**
 * The pinned-title hook: a title element is kept at a fixed distance from the
 * top of the viewport while the tall container it sits in scrolls past, then
 * parked at the bottom of that container. The decision is recomputed from the
 * current bounding rectangles on every scroll and resize event and once when
 * the effect is set up.
 */
module PinnedTitle {
  import opened Optional

  /** The fields of a bounding client rectangle, in viewport pixels. */
  datatype Rect = Rect(top: real, bottom: real, left: real, width: real, height: real)

  /** The inline style the hook hands to the title element. */
  datatype Style =
    | Default                                                        // `{}`: the title stays in normal flow
    | Fixed(top: real, left: real, width: real, zIndex: int)         // `position: fixed`
    | StuckToContainerBottom(bottom: real, left: real, right: real)  // `position: absolute`, inside the container

  /** The offset every caller passes, and the parameter's default. */
  const DEFAULT_OFFSET: real := 10.0

  /** The stacking order of a pinned title. */
  const PINNED_Z_INDEX: int := 30

  /** `Math.max(0, offsetTopPx)`: the distance from the viewport top at which the title is pinned. */
  function Threshold(offsetTopPx: real): (top: real)
    ensures top >= 0.0 && top >= offsetTopPx
    ensures top == 0.0 || top == offsetTopPx
  {
    if offsetTopPx > 0.0 then offsetTopPx else 0.0
  }

  /** `shouldFix`: the container top has reached the threshold and there is still room below it for the title. */
  predicate ShouldFix(c: Rect, t: Rect, top: real) {
    c.top <= top && c.bottom - t.height > top
  }

  /** The bottom-stop test: the remaining container is no taller than the title, and the container is not empty. */
  predicate ShouldStick(c: Rect, t: Rect, top: real) {
    c.bottom - t.height <= top && c.top < c.bottom
  }

  /** The style `handle` chooses for a container rect `c` and title rect `t`. */
  function Directive(c: Rect, t: Rect, offsetTopPx: real): (s: Style)
    ensures s.Fixed? <==> ShouldFix(c, t, Threshold(offsetTopPx))
    ensures s.Fixed? ==> s == Fixed(Threshold(offsetTopPx), c.left, c.width, PINNED_Z_INDEX)
    ensures s.StuckToContainerBottom? <==> !ShouldFix(c, t, Threshold(offsetTopPx)) && ShouldStick(c, t, Threshold(offsetTopPx))
    ensures s.StuckToContainerBottom? ==> s == StuckToContainerBottom(0.0, 0.0, 0.0)
    ensures s.Default? <==> !ShouldFix(c, t, Threshold(offsetTopPx)) && !ShouldStick(c, t, Threshold(offsetTopPx))
  {
    var top := Threshold(offsetTopPx);
    if ShouldFix(c, t, top) then Fixed(top, c.left, c.width, PINNED_Z_INDEX)
    else if ShouldStick(c, t, top) then StuckToContainerBottom(0.0, 0.0, 0.0)
    else Default
  }

  /**
   * The bottom-stop branch needs no test of the pin condition: its first
   * clause already contradicts it. So the parked style appears exactly when
   * the remaining container is no taller than the title and is not empty.
   */
  lemma StuckExactly(c: Rect, t: Rect, offsetTopPx: real)
    ensures Directive(c, t, offsetTopPx).StuckToContainerBottom?
        <==> c.bottom - t.height <= Threshold(offsetTopPx) && c.top < c.bottom
  {
  }

  /**
   * No override exactly when the container has not reached the threshold yet
   * and still has room for the title, or when the container is empty and has
   * no room for it.
   */
  lemma DefaultExactly(c: Rect, t: Rect, offsetTopPx: real)
    ensures var top := Threshold(offsetTopPx);
      Directive(c, t, offsetTopPx).Default? <==>
        (c.top > top && c.bottom - t.height > top) || (c.bottom - t.height <= top && c.top >= c.bottom)
  {
  }

  /** A title whose container has not reached the threshold is never pinned. */
  lemma NotFixedBeforeThreshold(c: Rect, t: Rect, offsetTopPx: real)
    requires c.top > Threshold(offsetTopPx)
    ensures !Directive(c, t, offsetTopPx).Fixed?
  {
  }

  /**
   * While the container is still below the threshold, a title that fits in
   * its container keeps its natural position.
   */
  lemma DefaultBeforeThresholdWhenTitleFits(c: Rect, t: Rect, offsetTopPx: real)
    requires c.top > Threshold(offsetTopPx)
    requires t.height <= c.bottom - c.top
    ensures Directive(c, t, offsetTopPx) == Default
  {
  }

  /**
   * Without that assumption a container below the threshold can already park
   * its title at the bottom. This happens when the title is taller than the
   * distance from the threshold to the container bottom. An example is a
   * 50-pixel container 100 pixels down holding a 200-pixel title.
   */
  lemma TallTitleParksBeforeThreshold()
    ensures Directive(Rect(100.0, 150.0, 0.0, 300.0, 50.0), Rect(100.0, 300.0, 0.0, 300.0, 200.0), DEFAULT_OFFSET)
         == StuckToContainerBottom(0.0, 0.0, 0.0)
  {
  }

  /**
   * A pinned title lies inside its container: at the threshold, at or below
   * the container top, and ending above the container bottom, so it cannot
   * overlap the next section.
   */
  lemma FixedTitleInsideContainer(c: Rect, t: Rect, offsetTopPx: real)
    requires Directive(c, t, offsetTopPx).Fixed?
    ensures var s := Directive(c, t, offsetTopPx);
      s.top >= 0.0 && c.top <= s.top && s.top + t.height < c.bottom
  {
  }

  /** A negative offset behaves as offset 0. */
  lemma NegativeOffsetIsZero(c: Rect, t: Rect, offsetTopPx: real)
    requires offsetTopPx <= 0.0
    ensures Directive(c, t, offsetTopPx) == Directive(c, t, 0.0)
  {
  }

  /** The three styles in the order a downward scroll passes through them. */
  function Phase(s: Style): (n: nat)
    ensures n <= 2
  {
    match s
    case Default => 0
    case Fixed(_, _, _, _) => 1
    case StuckToContainerBottom(_, _, _) => 2
  }

  /** The container rect after the page has scrolled down by `delta` pixels. */
  function ScrolledBy(c: Rect, delta: real): (c': Rect)
    ensures c'.bottom - c'.top == c.bottom - c.top
  {
    c.(top := c.top - delta, bottom := c.bottom - delta)
  }

  /**
   * Scrolling down never moves a title backwards through
   * Default, Fixed, StuckToContainerBottom, whatever the title height.
   */
  lemma ScrollingDownIsMonotone(c: Rect, t: Rect, offsetTopPx: real, delta: real)
    requires c.top < c.bottom
    requires delta >= 0.0
    ensures Phase(Directive(c, t, offsetTopPx)) <= Phase(Directive(ScrolledBy(c, delta), t, offsetTopPx))
  {
  }

  /** The DOM at one instant: each ref is null, or an element with its current bounding rect. */
  datatype Dom = Dom(container: Option<Rect>, title: Option<Rect>)

  /** One run of `handle`: nothing happens while a ref is null; otherwise the directive replaces the style. */
  function Handle(prev: Style, dom: Dom, offsetTopPx: real): (s: Style)
    ensures dom.container.None? || dom.title.None? ==> s == prev
    ensures dom.container.Some? && dom.title.Some? ==> s == Directive(dom.container.value, dom.title.value, offsetTopPx)
  {
    match (dom.container, dom.title)
    case (Some(c), Some(t)) => Directive(c, t, offsetTopPx)
    case _ => prev
  }

  /** With both refs set, the style depends on the current geometry only, not on the previous style. */
  lemma HandleForgetsHistory(prev1: Style, prev2: Style, dom: Dom, offsetTopPx: real)
    requires dom.container.Some? && dom.title.Some?
    ensures Handle(prev1, dom, offsetTopPx) == Handle(prev2, dom, offsetTopPx)
  {
  }

  /** Recomputing on unchanged geometry leaves the style as it is. */
  lemma HandleIsIdempotent(prev: Style, dom: Dom, offsetTopPx: real)
    ensures Handle(Handle(prev, dom, offsetTopPx), dom, offsetTopPx) == Handle(prev, dom, offsetTopPx)
  {
  }

  datatype EventKind = Scroll | Resize

  /**
   * One `window.addEventListener` registration: the event, whether it was
   * registered as passive, and the `handle` closure it holds, identified by
   * the effect run that created it and the offset that run captured.
   */
  datatype Listener = Listener(event: EventKind, passive: bool, run: nat, offsetTopPx: real)

  /** The two listeners effect run `run` adds: a passive scroll listener and a resize listener. */
  function Registration(run: nat, offsetTopPx: real): (ls: set<Listener>)
    ensures |ls| == 2
    ensures forall l :: l in ls ==> l.run == run && l.offsetTopPx == offsetTopPx
    ensures Listener(Scroll, true, run, offsetTopPx) in ls
    ensures Listener(Resize, false, run, offsetTopPx) in ls
  {
    var scroll := Listener(Scroll, true, run, offsetTopPx);
    var resize := Listener(Resize, false, run, offsetTopPx);
    assert {scroll, resize} - {scroll} == {resize};
    {scroll, resize}
  }

  /**
   * The state of one `usePinnedTitle` instance: its offset argument, the
   * `style` state, the window listeners it has registered, and the number of
   * times its effect has run (so that each run's `handle` closure is distinct).
   */
  class PinnedTitleHook {
    var offsetTopPx: real
    var style: Style
    var listeners: set<Listener>
    var runs: nat

    /** Either nothing is registered, or exactly the two listeners of the current effect run. */
    ghost predicate Valid()
      reads this
    {
      listeners == {} || listeners == Registration(runs, offsetTopPx)
    }

    /** The effect is set up and not yet cleaned up. */
    predicate Mounted()
      reads this
    {
      listeners != {}
    }

    /** The first render: `useState({})`, nothing registered yet. */
    constructor (offsetTopPx: real)
      ensures Valid() && !Mounted()
      ensures this.offsetTopPx == offsetTopPx && style == Default && runs == 0
    {
      this.offsetTopPx := offsetTopPx;
      style := Default;
      listeners := {};
      runs := 0;
    }

    /** `handle()`: recompute the style from the DOM as it is now. */
    method HandleNow(dom: Dom)
      modifies this`style
      ensures style == Handle(old(style), dom, offsetTopPx)
    {
      style := Handle(style, dom, offsetTopPx);
    }

    /** The effect body: run `handle` once, then register it for scroll (passive) and resize. */
    method RunEffect(dom: Dom)
      requires Valid() && !Mounted()
      modifies this
      ensures Valid() && Mounted()
      ensures offsetTopPx == old(offsetTopPx) && runs == old(runs) + 1
      ensures listeners == Registration(runs, offsetTopPx)
      ensures style == Handle(old(style), dom, offsetTopPx)
    {
      runs := runs + 1;
      HandleNow(dom);
      listeners := listeners + {Listener(Scroll, true, runs, offsetTopPx)};
      listeners := listeners + {Listener(Resize, false, runs, offsetTopPx)};
    }

    /** The cleanup the effect returns: remove both listeners of the current run. */
    method Cleanup()
      requires Valid()
      modifies this
      ensures Valid() && !Mounted()
      ensures listeners == old(listeners) - Registration(runs, offsetTopPx)
      ensures offsetTopPx == old(offsetTopPx) && style == old(style) && runs == old(runs)
    {
      listeners := listeners - {Listener(Scroll, true, runs, offsetTopPx)};
      listeners := listeners - {Listener(Resize, false, runs, offsetTopPx)};
    }

    /**
     * A re-render with offset `newOffset`. The effect depends on the offset
     * only: unchanged, nothing happens; changed, the old listeners are
     * removed and the effect runs again with the new offset.
     */
    method Rerender(newOffset: real, dom: Dom)
      requires Valid() && Mounted()
      modifies this
      ensures Valid() && Mounted()
      ensures offsetTopPx == newOffset
      ensures forall l :: l in listeners ==> l.offsetTopPx == newOffset
      ensures newOffset == old(offsetTopPx) ==>
        listeners == old(listeners) && style == old(style) && runs == old(runs)
      ensures newOffset != old(offsetTopPx) ==>
        runs == old(runs) + 1 && listeners == Registration(runs, newOffset) && style == Handle(old(style), dom, newOffset)
    {
      if newOffset != offsetTopPx {
        Cleanup();
        offsetTopPx := newOffset;
        RunEffect(dom);
      }
    }

    /**
     * The browser fires `event`: every listener registered for it runs its
     * `handle` with the offset it captured. After cleanup nothing runs.
     */
    method Dispatch(event: EventKind, dom: Dom)
      requires Valid()
      modifies this`style
      ensures Mounted() ==> style == Handle(old(style), dom, offsetTopPx)
      ensures !Mounted() ==> style == old(style)
    {
      if Mounted() {
        assert Listener(event, event == Scroll, runs, offsetTopPx) in listeners;
      }
      if l :| l in listeners && l.event == event {
        style := Handle(style, dom, l.offsetTopPx);
      }
    }
  }

  /**
   * A mount, any number of events, then teardown: once cleaned up, a resize
   * no longer changes the style.
   */
  method MountScrollTeardown(dom1: Dom, dom2: Dom, dom3: Dom)
  {
    var hook := new PinnedTitleHook(DEFAULT_OFFSET);
    hook.RunEffect(dom1);
    hook.Dispatch(Scroll, dom2);
    assert dom2.container.Some? && dom2.title.Some? ==>
      hook.style == Directive(dom2.container.value, dom2.title.value, DEFAULT_OFFSET);
    hook.Cleanup();
    var before := hook.style;
    hook.Dispatch(Resize, dom3);
    assert hook.style == before;
  }
}
