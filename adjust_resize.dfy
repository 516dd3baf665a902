/**
 * AdjustResizeWithFullScreen: the detector used when the window is full
 * screen and adjustResize has no effect. On each layout sample it compares
 * the visible bottom with the screen height, keeps an open/closed flag and
 * a keyboard height, and reports onKeyboardOpened / onKeyboardClosed on the
 * edges and onKeyboardResize on every processed sample. The process-wide
 * singleton and the static keyboard height live in FullScreenAssist.
 */
module FullScreen {
  import opened Options
  import opened Rects
  import Listeners

  /** The smallest height difference that counts as an open keyboard. */
  const KEYBOARD_MIN_HEIGHT: int := 200

  /** One callback on the OnKeyboardStatusListener. */
  datatype StatusEvent = Opened | Closed | Resize(heightOfLayout: int, bottom: int)

  /**
   * The detector's fields, with the static keyboard height alongside.
   *   hasListener: mListener != null.
   */
  datatype ResizeState = ResizeState(
    hasListener: bool,
    visible: Rect,
    usableHeightPrevious: int,
    usableWidthPrevious: int,
    keyboardOpened: bool,
    keyboardHeight: int)

  datatype ResizeResult = ResizeResult(state: ResizeState, events: seq<StatusEvent>)

  /** One callback together with the OnKeyboardStatusListener it was made on. */
  datatype Delivery = Delivery(to: Listeners.ListenerId, event: StatusEvent)

  /** The callbacks events, all made on the listener l. */
  function Addressed(l: Listeners.ListenerId, events: seq<StatusEvent>): (r: seq<Delivery>)
    ensures |r| == |events|
    ensures forall i :: 0 <= i < |r| ==> r[i] == Delivery(l, events[i])
  {
    if events == [] then [] else [Delivery(l, events[0])] + Addressed(l, events[1..])
  }

  /** The callbacks of a log that were made on the listener l, in order. */
  function DeliveredTo(log: seq<Delivery>, l: Listeners.ListenerId): (r: seq<StatusEvent>)
    ensures |r| <= |log|
  {
    if log == [] then []
    else if log[0].to == l then [log[0].event] + DeliveredTo(log[1..], l)
    else DeliveredTo(log[1..], l)
  }

  lemma {:induction false} DeliveredToAppend(a: seq<Delivery>, b: seq<Delivery>, l: Listeners.ListenerId)
    ensures DeliveredTo(a + b, l) == DeliveredTo(a, l) + DeliveredTo(b, l)
    decreases |a|
  {
    if a != [] {
      assert (a + b)[0] == a[0] && (a + b)[1..] == a[1..] + b;
      DeliveredToAppend(a[1..], b, l);
    } else {
      assert a + b == b;
    }
  }

  /**
   * Callbacks addressed to one listener reach exactly that listener: it
   * sees all of them, in order, and any other listener sees none.
   */
  lemma {:induction false} AddressedReachesOnlyItsListener(l: Listeners.ListenerId, events: seq<StatusEvent>,
                                                          other: Listeners.ListenerId)
    requires other != l
    ensures DeliveredTo(Addressed(l, events), l) == events
    ensures DeliveredTo(Addressed(l, events), other) == []
    decreases |events|
  {
    if events != [] {
      var r := Addressed(l, events);
      assert r[1..] == Addressed(l, events[1..]);
      AddressedReachesOnlyItsListener(l, events[1..], other);
    }
  }

  /** A layout sample: the visible display frame and the content child's bottom. */
  datatype LayoutSample = LayoutSample(visible: Rect, childBottom: int)

  /** The keyboard counts as open when it hides more than KEYBOARD_MIN_HEIGHT pixels. */
  predicate IsOpen(heightPixels: int, bottom: int)
  {
    heightPixels - bottom > KEYBOARD_MIN_HEIGHT
  }

  /** possiblyResizeChildOfContent, with the listener callbacks as a list of events. */
  function ResizeStep(heightPixels: int, s: ResizeState, visible: Rect, childBottom: int): (r: ResizeResult)
    // The visible area is refreshed on every sample.
    ensures r.state.visible == visible && r.state.hasListener == s.hasListener
    // A sample with the same bottom and right as the last processed one is ignored.
    ensures visible.bottom == s.usableHeightPrevious && visible.right == s.usableWidthPrevious ==>
      r.state == s.(visible := visible) && r.events == []
    ensures !(visible.bottom == s.usableHeightPrevious && visible.right == s.usableWidthPrevious) ==>
      var open := IsOpen(heightPixels, visible.bottom);
      // The dedup key moves to this sample.
      && r.state.usableHeightPrevious == visible.bottom
      && r.state.usableWidthPrevious == visible.right
      && r.state.keyboardOpened == open
      // The stored height is the distance from the visible bottom to the content bottom,
      // rewritten only while open and only when it differs from the height difference.
      && (open && s.keyboardHeight != heightPixels - visible.bottom ==>
            r.state.keyboardHeight == childBottom - visible.bottom)
      && (!open || s.keyboardHeight == heightPixels - visible.bottom ==>
            r.state.keyboardHeight == s.keyboardHeight)
      // Opened / Closed only on an edge, then exactly one Resize, last.
      && (s.hasListener ==>
            r.events == (if open && !s.keyboardOpened then [Opened]
                         else if !open && s.keyboardOpened then [Closed]
                         else []) + [Resize(visible.bottom, 0)])
      && (!s.hasListener ==> r.events == [])
  {
    var usableHeightNow := visible.bottom;
    var usableWidthNow := visible.right;
    if usableHeightNow != s.usableHeightPrevious || usableWidthNow != s.usableWidthPrevious then
      var heightDifference := heightPixels - usableHeightNow;
      var notify := if s.hasListener then [Resize(usableHeightNow, 0)] else [];
      var s1 := s.(visible := visible, usableHeightPrevious := usableHeightNow, usableWidthPrevious := usableWidthNow);
      if heightDifference > KEYBOARD_MIN_HEIGHT then
        var kh := if s.keyboardHeight != heightDifference
                  then heightDifference - (heightPixels - childBottom)
                  else s.keyboardHeight;
        var edge := if !s.keyboardOpened && s.hasListener then [Opened] else [];
        ResizeResult(s1.(keyboardOpened := true, keyboardHeight := kh), edge + notify)
      else
        var edge := if s.keyboardOpened && s.hasListener then [Closed] else [];
        ResizeResult(s1.(keyboardOpened := false), edge + notify)
    else
      ResizeResult(s.(visible := visible), [])
  }

  /** A sequence of layout samples, callbacks concatenated. */
  function ResizeRun(heightPixels: int, s: ResizeState, samples: seq<LayoutSample>): (r: ResizeResult)
    ensures r.state.hasListener == s.hasListener
    decreases |samples|
  {
    if samples == [] then ResizeResult(s, [])
    else
      var first := ResizeStep(heightPixels, s, samples[0].visible, samples[0].childBottom);
      var rest := ResizeRun(heightPixels, first.state, samples[1..]);
      ResizeResult(rest.state, first.events + rest.events)
  }

  /** The same sample delivered twice in a row: the second one is silent and changes nothing. */
  lemma RepeatedSampleIsSilent(heightPixels: int, s: ResizeState, visible: Rect, childBottom: int, childBottom2: int)
    ensures
      var first := ResizeStep(heightPixels, s, visible, childBottom);
      var second := ResizeStep(heightPixels, first.state, visible, childBottom2);
      second.state == first.state && second.events == []
  {
  }

  /** Closing never resets the stored keyboard height. */
  lemma ClosingKeepsKeyboardHeight(heightPixels: int, s: ResizeState, visible: Rect, childBottom: int)
    requires !IsOpen(heightPixels, visible.bottom)
    ensures ResizeStep(heightPixels, s, visible, childBottom).state.keyboardHeight == s.keyboardHeight
  {
  }

  /** The open/close callbacks of a list of events, in order. */
  function Transitions(events: seq<StatusEvent>): (r: seq<StatusEvent>)
    ensures forall i :: 0 <= i < |r| ==> !r[i].Resize?
    ensures |r| <= |events|
  {
    if events == [] then []
    else if events[0].Resize? then Transitions(events[1..])
    else [events[0]] + Transitions(events[1..])
  }

  lemma {:induction false} TransitionsAppend(a: seq<StatusEvent>, b: seq<StatusEvent>)
    ensures Transitions(a + b) == Transitions(a) + Transitions(b)
    decreases |a|
  {
    if a != [] {
      assert (a + b)[0] == a[0] && (a + b)[1..] == a[1..] + b;
      TransitionsAppend(a[1..], b);
    } else {
      assert a + b == b;
    }
  }

  /** Starting open or closed, the transitions go Closed, Opened, Closed, ... or Opened, Closed, ... */
  predicate AlternatesFrom(ts: seq<StatusEvent>, wasOpen: bool)
    decreases |ts|
  {
    ts == [] || (ts[0] == (if wasOpen then Closed else Opened) && AlternatesFrom(ts[1..], !wasOpen))
  }

  /** Whether the keyboard is open after the transitions ts, starting from wasOpen. */
  function OpenedAfter(ts: seq<StatusEvent>, wasOpen: bool): bool
    decreases |ts|
  {
    if ts == [] then wasOpen else OpenedAfter(ts[1..], !wasOpen)
  }

  lemma {:induction false} AlternatesAppend(a: seq<StatusEvent>, b: seq<StatusEvent>, wasOpen: bool)
    requires AlternatesFrom(a, wasOpen)
    requires AlternatesFrom(b, OpenedAfter(a, wasOpen))
    ensures AlternatesFrom(a + b, wasOpen)
    ensures OpenedAfter(a + b, wasOpen) == OpenedAfter(b, OpenedAfter(a, wasOpen))
    decreases |a|
  {
    if a != [] {
      assert (a + b)[0] == a[0] && (a + b)[1..] == a[1..] + b;
      AlternatesAppend(a[1..], b, !wasOpen);
    } else {
      assert a + b == b;
    }
  }

  /**
   * With a listener registered, the open and close callbacks strictly
   * alternate over any sequence of samples, beginning with the one that
   * leaves the starting state, and their count tells the final state.
   */
  lemma {:induction false} CallbacksAlternate(heightPixels: int, s: ResizeState, samples: seq<LayoutSample>)
    requires s.hasListener
    ensures AlternatesFrom(Transitions(ResizeRun(heightPixels, s, samples).events), s.keyboardOpened)
    ensures ResizeRun(heightPixels, s, samples).state.keyboardOpened
            == OpenedAfter(Transitions(ResizeRun(heightPixels, s, samples).events), s.keyboardOpened)
    decreases |samples|
  {
    if samples != [] {
      var first := ResizeStep(heightPixels, s, samples[0].visible, samples[0].childBottom);
      var rest := ResizeRun(heightPixels, first.state, samples[1..]);
      var t1 := Transitions(first.events);
      assert t1 == [] || t1 == [Opened] || t1 == [Closed] by {
        assert Transitions([Resize(samples[0].visible.bottom, 0)]) == [];
        TransitionsAppend([Opened], [Resize(samples[0].visible.bottom, 0)]);
        TransitionsAppend([Closed], [Resize(samples[0].visible.bottom, 0)]);
      }
      assert AlternatesFrom(t1, s.keyboardOpened) && OpenedAfter(t1, s.keyboardOpened) == first.state.keyboardOpened;
      CallbacksAlternate(heightPixels, first.state, samples[1..]);
      TransitionsAppend(first.events, rest.events);
      AlternatesAppend(t1, Transitions(rest.events), s.keyboardOpened);
    }
  }

  /** isFullscreen's test, with Java's remainder (which agrees with Dafny's on a zero test). */
  predicate IsFullscreenValue(bottom: int, keyboardHeight: int, heightPixels: int)
    requires heightPixels != 0
  {
    bottom % heightPixels == 0 || (bottom + keyboardHeight) % heightPixels == 0
  }

  lemma ModZeroInRange(x: int, h: int)
    requires 0 < h && 0 < x < 2 * h
    ensures x % h == 0 <==> x == h
  {
    if x < h {
      assert x % h == x;
    } else {
      assert x == h + (x - h);
      assert x % h == x - h;
    }
  }

  /**
   * On a screen in normal use (the visible bottom on screen and the bottom
   * plus the keyboard less than two screens), full screen means the visible
   * area reaches the bottom, or reaches it once the keyboard is added.
   */
  lemma {:induction false} FullscreenWithinOneScreen(bottom: int, keyboardHeight: int, heightPixels: int)
    requires 0 < bottom <= heightPixels
    requires 0 < bottom + keyboardHeight < 2 * heightPixels
    ensures IsFullscreenValue(bottom, keyboardHeight, heightPixels)
            <==> bottom == heightPixels || bottom + keyboardHeight == heightPixels
  {
    ModZeroInRange(bottom, heightPixels);
    ModZeroInRange(bottom + keyboardHeight, heightPixels);
  }

  /** An AdjustResizeWithFullScreen instance. */
  class AdjustResizeWithFullScreen {
    const heightPixels: int
    const statusBarHeight: int
    const navigationBarHeight: int
    /** mListener; callbacks are made on it only while it is set. */
    var listener: Option<Listeners.ListenerId>
    var visibleViewArea: Rect
    var usableHeightPrevious: int
    var usableWidthPrevious: int
    var keyboardOpened: bool
    /**
     * How many copies of this instance's layout listener the content child's
     * view tree holds: every initData adds one, every unregister removes one.
     */
    var registrations: nat
    /** The callbacks made so far, each with the listener it was made on, in order. */
    var delivered: seq<Delivery>

    function State(keyboardHeight: int): ResizeState
      reads this
    {
      ResizeState(listener.Some?, visibleViewArea, usableHeightPrevious, usableWidthPrevious, keyboardOpened, keyboardHeight)
    }

    /** The private constructor; initData runs at its end. */
    constructor (heightPixels: int, statusBarHeight: int, navigationBarHeight: int,
                 listener: Option<Listeners.ListenerId>, childBottom: int)
      ensures this.heightPixels == heightPixels && this.statusBarHeight == statusBarHeight
      ensures this.navigationBarHeight == navigationBarHeight
      ensures this.listener == listener && registrations == 1 && !keyboardOpened
      ensures visibleViewArea == EmptyRect && usableHeightPrevious == 0 && usableWidthPrevious == 0
      ensures delivered == if listener.Some? then [Delivery(listener.value, Resize(childBottom, 0))] else []
    {
      this.heightPixels := heightPixels;
      this.statusBarHeight := statusBarHeight;
      this.navigationBarHeight := navigationBarHeight;
      this.listener := None;
      visibleViewArea := EmptyRect;
      usableHeightPrevious, usableWidthPrevious := 0, 0;
      keyboardOpened := false;
      registrations := 0;
      delivered := [];
      new;
      InitData(listener, childBottom);
    }

    /**
     * initData: a non-null listener replaces the current one, the layout
     * listener is added once more, and the listener (old or new) gets one
     * Resize with the content child's bottom.
     */
    method InitData(listener: Option<Listeners.ListenerId>, childBottom: int)
      modifies this
      ensures this.listener == (if listener.Some? then listener else old(this.listener))
      ensures registrations == old(registrations) + 1
      ensures delivered == old(delivered)
                           + (if this.listener.Some? then [Delivery(this.listener.value, Resize(childBottom, 0))] else [])
      ensures visibleViewArea == old(visibleViewArea) && keyboardOpened == old(keyboardOpened)
      ensures usableHeightPrevious == old(usableHeightPrevious) && usableWidthPrevious == old(usableWidthPrevious)
    {
      if listener.Some? {
        this.listener := listener;
      }
      registrations := registrations + 1;
      if this.listener.Some? {
        delivered := delivered + [Delivery(this.listener.value, Resize(childBottom, 0))];
      }
    }

    /** possiblyResizeChildOfContent; the static keyboard height goes in and comes back out. */
    method PossiblyResizeChildOfContent(visible: Rect, childBottom: int, keyboardHeight: int)
      returns (newKeyboardHeight: int)
      modifies this
      ensures State(newKeyboardHeight) == ResizeStep(heightPixels, old(State(keyboardHeight)), visible, childBottom).state
      // Every callback goes to the current listener; without one there are none.
      ensures listener.Some? ==>
        delivered == old(delivered) + Addressed(listener.value, ResizeStep(heightPixels, old(State(keyboardHeight)), visible, childBottom).events)
      ensures listener.None? ==> delivered == old(delivered)
      ensures listener == old(listener) && registrations == old(registrations)
    {
      newKeyboardHeight := keyboardHeight;
      visibleViewArea := visible;
      var usableHeightNow := visibleViewArea.bottom;
      var usableWidthNow := visibleViewArea.right;
      if usableHeightNow != usableHeightPrevious || usableWidthNow != usableWidthPrevious {
        var heightDifference := heightPixels - usableHeightNow;
        if heightDifference > KEYBOARD_MIN_HEIGHT {
          if newKeyboardHeight != heightDifference {
            newKeyboardHeight := heightDifference - (heightPixels - childBottom);
          }
          if !keyboardOpened {
            keyboardOpened := true;
            if listener.Some? {
              delivered := delivered + [Delivery(listener.value, Opened)];
            }
          }
          if listener.Some? {
            delivered := delivered + [Delivery(listener.value, Resize(usableHeightNow, 0))];
          }
        } else {
          if keyboardOpened {
            keyboardOpened := false;
            if listener.Some? {
              delivered := delivered + [Delivery(listener.value, Closed)];
            }
          }
          if listener.Some? {
            delivered := delivered + [Delivery(listener.value, Resize(usableHeightNow, 0))];
          }
        }
        usableHeightPrevious := usableHeightNow;
        usableWidthPrevious := usableWidthNow;
      }
    }
  }

  /** The static members: the singleton mInstance and mKeyboardHeight. */
  class FullScreenAssist {
    var instance: AdjustResizeWithFullScreen?
    var keyboardHeight: int

    ghost predicate Valid()
      reads this, instance
    {
      instance != null ==> instance.heightPixels > 0
    }

    constructor ()
      ensures instance == null && keyboardHeight == 0 && Valid()
    {
      instance := null;
      keyboardHeight := 0;
    }

    /** isInit. */
    function IsInit(): (r: bool)
      reads this
      ensures r <==> instance != null
    {
      instance != null
    }

    /** assistRegisterActivity: the first call creates the singleton, later calls reuse it. */
    method AssistRegisterActivity(heightPixels: int, statusBarHeight: int, navigationBarHeight: int,
                                  listener: Option<Listeners.ListenerId>, childBottom: int)
      requires heightPixels > 0
      requires Valid()
      modifies this, instance
      ensures Valid() && instance != null && keyboardHeight == old(keyboardHeight)
      ensures old(instance) != null ==>
        && instance == old(instance)
        && instance.heightPixels == old(instance.heightPixels)
        && instance.listener == (if listener.Some? then listener else old(instance.listener))
        && instance.delivered == old(instance.delivered)
             + (if instance.listener.Some? then [Delivery(instance.listener.value, Resize(childBottom, 0))] else [])
        && instance.keyboardOpened == old(instance.keyboardOpened)
        && instance.usableHeightPrevious == old(instance.usableHeightPrevious)
        && instance.usableWidthPrevious == old(instance.usableWidthPrevious)
        && instance.visibleViewArea == old(instance.visibleViewArea)
        && instance.registrations == old(instance.registrations) + 1
      ensures old(instance) == null ==>
        && fresh(instance)
        && instance.heightPixels == heightPixels
        && instance.registrations == 1
        && instance.listener == listener && !instance.keyboardOpened
        && instance.visibleViewArea == EmptyRect
        && instance.usableHeightPrevious == 0 && instance.usableWidthPrevious == 0
        && instance.delivered == (if listener.Some? then [Delivery(listener.value, Resize(childBottom, 0))] else [])
    {
      if instance == null {
        instance := new AdjustResizeWithFullScreen(heightPixels, statusBarHeight, navigationBarHeight, listener, childBottom);
      } else {
        instance.InitData(listener, childBottom);
      }
    }

    /**
     * assistUnRegister: removes one copy of the layout listener (removing an
     * absent listener does nothing) and drops the singleton; the keyboard
     * height stays. An instance registered twice keeps one copy attached.
     */
    method AssistUnRegister()
      modifies this, instance
      ensures instance == null && keyboardHeight == old(keyboardHeight)
      ensures old(instance) != null ==>
        && old(instance).registrations == (if old(instance.registrations) == 0 then 0 else old(instance.registrations) - 1)
        && old(instance).State(0) == old(instance.State(0))
        && old(instance).delivered == old(instance.delivered)
        && old(instance).listener == old(instance.listener)
    {
      if instance != null {
        if instance.registrations > 0 {
          instance.registrations := instance.registrations - 1;
        }
        instance := null;
      }
    }

    /**
     * The layout listener of target firing. Any instance whose listener is
     * still attached receives it, the current singleton or a dropped one,
     * and it always rewrites the shared keyboard height.
     */
    method OnGlobalLayout(target: AdjustResizeWithFullScreen, visible: Rect, childBottom: int)
      requires target.registrations > 0
      modifies this, target
      ensures instance == old(instance)
      ensures target.State(keyboardHeight)
           == ResizeStep(target.heightPixels, old(target.State(keyboardHeight)), visible, childBottom).state
      ensures target.listener.Some? ==>
        target.delivered == old(target.delivered)
          + Addressed(target.listener.value,
                      ResizeStep(target.heightPixels, old(target.State(keyboardHeight)), visible, childBottom).events)
      ensures target.listener.None? ==> target.delivered == old(target.delivered)
      ensures target.listener == old(target.listener) && target.registrations == old(target.registrations)
    {
      keyboardHeight := target.PossiblyResizeChildOfContent(visible, childBottom, keyboardHeight);
    }

    /**
     * isFullscreen: each of the two tests queries the visible frame afresh,
     * so the second test (reached only when the first fails) sees a second
     * sample, second.
     */
    method IsFullscreen(first: Rect, second: Rect) returns (r: bool)
      requires Valid()
      modifies instance
      ensures instance == null ==> !r
      ensures instance != null ==>
        && r == (first.bottom % instance.heightPixels == 0
                 || (second.bottom + keyboardHeight) % instance.heightPixels == 0)
        && instance.visibleViewArea == if first.bottom % instance.heightPixels == 0 then first else second
      // With one unchanged sample it is the modular test on that sample.
      ensures instance != null && first == second ==>
        r == IsFullscreenValue(first.bottom, keyboardHeight, instance.heightPixels)
      // Only the visible area is rewritten.
      ensures instance != null ==>
        && instance.State(0) == old(instance.State(0)).(visible := instance.visibleViewArea)
        && instance.listener == old(instance.listener)
        && instance.registrations == old(instance.registrations)
        && instance.delivered == old(instance.delivered)
      ensures instance == old(instance) && keyboardHeight == old(keyboardHeight)
    {
      if instance == null {
        return false;
      }
      instance.visibleViewArea := first;
      if instance.visibleViewArea.bottom % instance.heightPixels == 0 {
        return true;
      }
      instance.visibleViewArea := second;
      r := (instance.visibleViewArea.bottom + keyboardHeight) % instance.heightPixels == 0;
    }

    /** getKeyboardHeight. */
    function GetKeyboardHeight(): (r: int)
      reads this
      ensures instance == null ==> r == 0
      ensures instance != null ==> r == keyboardHeight
    {
      if instance != null then keyboardHeight else 0
    }

    /** getRemainingHeight: the room left below y inside the last visible area. */
    function GetRemainingHeight(y: int): (r: int)
      reads this, instance
      ensures instance == null ==> r == 0
      ensures instance != null ==> y + r == instance.visibleViewArea.bottom
    {
      if instance == null then 0 else instance.visibleViewArea.bottom - y
    }

    /** getWindowBottom. */
    function GetWindowBottom(): (r: int)
      reads this, instance
      ensures instance == null ==> r == 0
      ensures instance != null ==> r == instance.heightPixels
    {
      if instance != null then instance.heightPixels else 0
    }

    /** getUseBottom: refreshes the visible area and returns its bottom. */
    method GetUseBottom(visible: Rect) returns (r: int)
      modifies instance
      ensures instance == null ==> r == 0
      ensures instance != null ==> r == visible.bottom && instance.visibleViewArea == visible
      ensures instance != null ==>
        && instance.State(0) == old(instance.State(0)).(visible := instance.visibleViewArea)
        && instance.listener == old(instance.listener)
        && instance.registrations == old(instance.registrations)
        && instance.delivered == old(instance.delivered)
      ensures instance == old(instance) && keyboardHeight == old(keyboardHeight)
    {
      if instance == null {
        return 0;
      }
      instance.visibleViewArea := visible;
      r := instance.visibleViewArea.bottom;
    }

    /** getUseRight: refreshes the visible area and returns its right edge. */
    method GetUseRight(visible: Rect) returns (r: int)
      modifies instance
      ensures instance == null ==> r == 0
      ensures instance != null ==> r == visible.right && instance.visibleViewArea == visible
      ensures instance != null ==>
        && instance.State(0) == old(instance.State(0)).(visible := instance.visibleViewArea)
        && instance.listener == old(instance.listener)
        && instance.registrations == old(instance.registrations)
        && instance.delivered == old(instance.delivered)
      ensures instance == old(instance) && keyboardHeight == old(keyboardHeight)
    {
      if instance == null {
        return 0;
      }
      instance.visibleViewArea := visible;
      r := instance.visibleViewArea.right;
    }
  }

  /**
   * Registering twice and unregistering once drops the singleton but leaves
   * one copy of its layout listener attached: a later layout still reaches
   * the dropped instance and its listener, and rewrites the shared keyboard
   * height, which getKeyboardHeight hides until the next registration.
   */
  method ReRegisterLeavesListenerAttached(heightPixels: int, visible: Rect, childBottom: int, l: Listeners.ListenerId)
    returns (assist: FullScreenAssist, dropped: AdjustResizeWithFullScreen)
    requires 0 < visible.bottom && heightPixels - visible.bottom > KEYBOARD_MIN_HEIGHT
    ensures assist.instance == null && dropped.registrations == 1
    ensures assist.keyboardHeight == childBottom - visible.bottom
    ensures assist.GetKeyboardHeight() == 0
    ensures dropped.delivered == Addressed(l, [Resize(childBottom, 0), Resize(childBottom, 0), Opened, Resize(visible.bottom, 0)])
  {
    assist := new FullScreenAssist();
    assist.AssistRegisterActivity(heightPixels, 0, 0, Some(l), childBottom);
    dropped := assist.instance;
    assist.AssistRegisterActivity(heightPixels, 0, 0, None, childBottom);
    assist.AssistUnRegister();
    assert dropped.State(0) == ResizeState(true, EmptyRect, 0, 0, false, 0);
    assist.OnGlobalLayout(dropped, visible, childBottom);
    assert dropped.delivered == [Delivery(l, Resize(childBottom, 0)), Delivery(l, Resize(childBottom, 0)),
                                 Delivery(l, Opened), Delivery(l, Resize(visible.bottom, 0))];
    assert Addressed(l, [Resize(childBottom, 0), Resize(childBottom, 0), Opened, Resize(visible.bottom, 0)])
        == [Delivery(l, Resize(childBottom, 0)), Delivery(l, Resize(childBottom, 0)),
            Delivery(l, Opened), Delivery(l, Resize(visible.bottom, 0))];
  }

  /**
   * Registering again with another listener hands the callbacks over: the
   * first listener gets only its own initial resize, and the opening seen
   * by the next layout goes to the second one alone.
   */
  method NewListenerTakesOverCallbacks(heightPixels: int, visible: Rect, childBottom: int,
                                       first: Listeners.ListenerId, second: Listeners.ListenerId)
    returns (assist: FullScreenAssist)
    requires first != second
    requires 0 < visible.bottom && heightPixels - visible.bottom > KEYBOARD_MIN_HEIGHT
    ensures assist.instance != null && assist.instance.listener == Some(second)
    ensures DeliveredTo(assist.instance.delivered, first) == [Resize(childBottom, 0)]
    ensures DeliveredTo(assist.instance.delivered, second) == [Resize(childBottom, 0), Opened, Resize(visible.bottom, 0)]
  {
    assist := new FullScreenAssist();
    assist.AssistRegisterActivity(heightPixels, 0, 0, Some(first), childBottom);
    var detector := assist.instance;
    assist.AssistRegisterActivity(heightPixels, 0, 0, Some(second), childBottom);
    ghost var before := detector.delivered;
    assert before == [Delivery(first, Resize(childBottom, 0)), Delivery(second, Resize(childBottom, 0))];
    assert detector.State(assist.keyboardHeight) == ResizeState(true, EmptyRect, 0, 0, false, assist.keyboardHeight);
    assist.OnGlobalLayout(detector, visible, childBottom);
    ghost var later := [Opened, Resize(visible.bottom, 0)];
    assert detector.delivered == before + Addressed(second, later);
    DeliveredToAppend(before, Addressed(second, later), first);
    DeliveredToAppend(before, Addressed(second, later), second);
    AddressedReachesOnlyItsListener(second, later, first);
    assert DeliveredTo(before, first) == [Resize(childBottom, 0)] by {
      assert before[1..] == [Delivery(second, Resize(childBottom, 0))];
      assert before[1..][1..] == [];
    }
    assert DeliveredTo(before, second) == [Resize(childBottom, 0)] by {
      assert before[1..] == [Delivery(second, Resize(childBottom, 0))];
      assert before[1..][1..] == [];
    }
  }
}
