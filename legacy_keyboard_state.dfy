/**
 * KeyboardState: the earlier, standalone revision of the keyboard state
 * machine, with two navigation-bar flags and the frame correction written
 * inline. It is proved to behave exactly like AbstractKeyboardState with the
 * KeyboardStateNormal correction.
 */
module LegacyKeyboard {
  import opened Options
  import opened Rects
  import opened Platform
  import opened Listeners
  import Strategies
  import KeyboardStates

  /** What the object is constructed with. */
  datatype LegacyConfig = LegacyConfig(navigationBarHeight: int, statusBarHeight: int, metrics: Metrics)

  /**
   * The two flags of this revision.
   *   navBar:  mIsNavigationBarShow, the ROM's layout leaves room for a bar;
   *   realBar: mIsRealNavigationBarShow, the system really draws a bar.
   */
  datatype LegacyFlags = LegacyFlags(navBar: bool, realBar: bool)

  /** The fields of a KeyboardState object. */
  datatype LState = LState(
    visible: Rect,
    frame: Option<Rect>,
    showing: bool,
    flags: LegacyFlags,
    isFirst: bool,
    usablePrevious: int,
    listeners: seq<ListenerId>)

  const Initial := LState(EmptyRect, None, false, LegacyFlags(false, false), false, 0, [])

  datatype LegacyStepResult = LegacyStepResult(state: LState, calls: seq<Notification>)

  /** KeyboardState.isNavigationBarShow(context, viewHeight). */
  function ClassifyLegacy(d: Display, viewHeight: int, f: LegacyFlags): (r: LegacyFlags)
    ensures d.sdkInt >= JELLY_BEAN_MR1 && viewHeight != 0 && viewHeight == d.realSize.y ==> !r.navBar
    ensures d.sdkInt >= JELLY_BEAN_MR1 && viewHeight != 0 && viewHeight < d.realSize.y ==> r.navBar
    ensures d.sdkInt >= JELLY_BEAN_MR1 && (viewHeight == 0 || viewHeight > d.realSize.y) ==> r.navBar == f.navBar
    ensures d.sdkInt >= JELLY_BEAN_MR1 ==> r.realBar == (d.realSize.y != d.size.y)
    ensures d.sdkInt < JELLY_BEAN_MR1 ==>
      r.navBar == r.realBar == !(d.hasPermanentMenuKey || d.hasBackKey)
  {
    if d.sdkInt >= JELLY_BEAN_MR1 then
      var nav :=
        if viewHeight != 0 then
          if viewHeight == d.realSize.y then false
          else if viewHeight < d.realSize.y then true
          else f.navBar
        else f.navBar;
      LegacyFlags(nav, d.realSize.y != d.size.y)
    else if d.hasPermanentMenuKey || d.hasBackKey then
      LegacyFlags(false, false)
    else
      LegacyFlags(true, true)
  }

  /** The inline correction of onGlobalLayout, branch for branch. */
  function CorrectLegacy(showing: bool, f: LegacyFlags, frame: Rect, navigationBarHeight: int): (r: Rect)
    // The navigation-bar flag is irrelevant: only showing and the real bar matter.
    ensures r == if showing && f.realBar then frame.ShiftTop(navigationBarHeight) else frame
  {
    if showing then
      if !f.navBar then
        if f.realBar then frame.ShiftTop(navigationBarHeight) else frame
      else
        if f.realBar then frame.ShiftTop(navigationBarHeight) else frame
    else
      frame
  }

  function RawFrame(c: LegacyConfig, visible: Rect): Rect
  {
    Rect(0, visible.bottom, c.metrics.widthPixels, c.metrics.heightPixels)
  }

  function Threshold(c: LegacyConfig, f: LegacyFlags): int
  {
    if f.navBar then c.navigationBarHeight else c.statusBarHeight
  }

  predicate Emits(c: LegacyConfig, s: LState, visible: Rect)
  {
    KeyboardStates.UsableHeight(visible) != s.usablePrevious && s.frame != Some(RawFrame(c, visible))
  }

  /** One onGlobalLayout call of this revision. */
  function LegacyStep(c: LegacyConfig, s: LState, visible: Rect, d: Display): (r: LegacyStepResult)
    ensures r.state.visible == visible && r.state.listeners == s.listeners
    ensures r.state.isFirst <==> s.visible.bottom == 0
    ensures r.state.isFirst ==> r.state.flags == ClassifyLegacy(d, visible.bottom, s.flags)
    ensures !r.state.isFirst ==> r.state.flags == s.flags
    ensures r.state.usablePrevious == KeyboardStates.UsableHeight(visible)
    ensures !Emits(c, s, visible) ==>
      r.calls == [] && r.state.frame == s.frame && r.state.showing == s.showing
    ensures Emits(c, s, visible) ==>
      var raw := RawFrame(c, visible);
      && r.state.showing == (raw.Height() > Threshold(c, r.state.flags))
      && r.state.frame == Some(if r.state.showing && r.state.flags.realBar
                               then raw.ShiftTop(c.navigationBarHeight) else raw)
      && r.calls == Notifications(s.listeners, r.state.showing, r.state.frame.value)
    ensures (s.showing ==> s.frame.Some?) ==> (r.state.showing ==> r.state.frame.Some?)
  {
    var isFirst := s.visible.bottom == 0;
    var s1 := s.(isFirst := isFirst, visible := visible);
    var s2 := if isFirst then s1.(flags := ClassifyLegacy(d, visible.bottom, s.flags)) else s1;
    var usableNow := KeyboardStates.UsableHeight(visible);
    if usableNow == s.usablePrevious then
      LegacyStepResult(s2, [])
    else
      var s3 := s2.(usablePrevious := usableNow);
      var raw := RawFrame(c, visible);
      if s.frame == Some(raw) then
        LegacyStepResult(s3, [])
      else
        var showing := raw.Height() > Threshold(c, s3.flags);
        var frame := CorrectLegacy(showing, s3.flags, raw, c.navigationBarHeight);
        LegacyStepResult(s3.(showing := showing, frame := Some(frame)), Notifications(s.listeners, showing, frame))
  }

  function LegacyRun(c: LegacyConfig, s: LState, samples: seq<KeyboardStates.Sample>): (r: LegacyStepResult)
    ensures r.state.listeners == s.listeners
    decreases |samples|
  {
    if samples == [] then LegacyStepResult(s, [])
    else
      var first := LegacyStep(c, s, samples[0].visible, samples[0].display);
      var rest := LegacyRun(c, first.state, samples[1..]);
      LegacyStepResult(rest.state, first.calls + rest.calls)
  }

  /** The AbstractKeyboardState configuration this object corresponds to. */
  function AsNormal(c: LegacyConfig): KeyboardStates.Config
  {
    KeyboardStates.Config(Strategies.Normal, c.navigationBarHeight, c.statusBarHeight, c.metrics, 0)
  }

  /** The fields of the two revisions agree; the newer third flag is free. */
  predicate Corresponds(l: LState, k: KeyboardStates.KState)
  {
    && l.visible == k.visible && l.frame == k.frame && l.showing == k.showing
    && l.flags.navBar == k.flags.romBar && l.flags.realBar == k.flags.realBar
    && l.isFirst == k.isFirst && l.usablePrevious == k.usablePrevious && l.listeners == k.listeners
  }

  /** One sample: the earlier revision and the Normal subclass make the same callbacks and stay in step. */
  lemma StepAgreesWithNormal(c: LegacyConfig, l: LState, k: KeyboardStates.KState, visible: Rect, d: Display)
    requires Corresponds(l, k)
    ensures Corresponds(LegacyStep(c, l, visible, d).state, KeyboardStates.Step(AsNormal(c), k, visible, d).state)
    ensures LegacyStep(c, l, visible, d).calls == KeyboardStates.Step(AsNormal(c), k, visible, d).calls
  {
    var lr := LegacyStep(c, l, visible, d);
    var kr := KeyboardStates.Step(AsNormal(c), k, visible, d);
    assert lr.state.flags.navBar == kr.state.flags.romBar && lr.state.flags.realBar == kr.state.flags.realBar;
  }

  /** Any sequence of samples: the two revisions make the same callbacks. */
  lemma {:induction false} RunAgreesWithNormal(c: LegacyConfig, l: LState, k: KeyboardStates.KState,
                                               samples: seq<KeyboardStates.Sample>)
    requires Corresponds(l, k)
    ensures Corresponds(LegacyRun(c, l, samples).state, KeyboardStates.Run(AsNormal(c), k, samples).state)
    ensures LegacyRun(c, l, samples).calls == KeyboardStates.Run(AsNormal(c), k, samples).calls
    decreases |samples|
  {
    if samples != [] {
      StepAgreesWithNormal(c, l, k, samples[0].visible, samples[0].display);
      var lf := LegacyStep(c, l, samples[0].visible, samples[0].display);
      var kf := KeyboardStates.Step(AsNormal(c), k, samples[0].visible, samples[0].display);
      RunAgreesWithNormal(c, lf.state, kf.state, samples[1..]);
    }
  }

  /** A freshly constructed object of either revision starts in corresponding states. */
  lemma InitialStatesCorrespond()
    ensures Corresponds(Initial, KeyboardStates.Initial)
  {
  }

  /**
   * A screen 1920 pixels high, status bar 60, navigation bar 120, the ROM
   * leaving no room for a bar but a real bar drawn: a visible bottom of 1800
   * gives a raw frame 120 high, so the keyboard counts as shown, and the
   * corrected frame that is stored and emitted has top 1920 and height 0.
   */
  lemma ZeroHeightFrameIsEmitted(l: ListenerId, d: Display)
    ensures
      var c := LegacyConfig(120, 60, Metrics(1080, 1920));
      var s := LState(Rect(0, 0, 1080, 1920), None, false, LegacyFlags(false, true), false, 1920, [l]);
      var r := LegacyStep(c, s, Rect(0, 0, 1080, 1800), d);
      && r.state.showing
      && r.state.frame == Some(Rect(0, 1920, 1080, 1920))
      && r.state.frame.value.Height() == 0
      && r.calls == [Shown(l, Rect(0, 1920, 1080, 1920))]
  {
  }

  /**
   * A first sample whose usable height is 0 (a view not laid out yet) is
   * filtered out, so the object still has no keyboard frame afterwards:
   * getKeyboardFrame() returns null until a later sample gets through.
   */
  lemma EmptyFirstSampleLeavesNoFrame(c: LegacyConfig, visible: Rect, d: Display)
    requires KeyboardStates.UsableHeight(visible) == 0
    ensures LegacyStep(c, Initial, visible, d).state.frame.None?
    ensures !LegacyStep(c, Initial, visible, d).state.showing
    ensures LegacyStep(c, Initial, visible, d).calls == []
  {
  }

  /** The KeyboardState object. */
  class KeyboardState {
    const config: LegacyConfig
    var visibleViewArea: Rect
    var keyboardFrame: Option<Rect>
    var keyboardShowing: bool
    var listeners: seq<ListenerId>
    var isNavigationBarShow: bool
    var isRealNavigationBarShow: bool
    var isFirst: bool
    var usableHeightPrevious: int

    function State(): LState
      reads this
    {
      LState(visibleViewArea, keyboardFrame, keyboardShowing,
             LegacyFlags(isNavigationBarShow, isRealNavigationBarShow),
             isFirst, usableHeightPrevious, listeners)
    }

    /** A showing keyboard has a frame. */
    ghost predicate Valid()
      reads this
    {
      keyboardShowing ==> keyboardFrame.Some?
    }

    /** The constructor runs onGlobalLayout once on the first sample; there are no listeners yet. */
    constructor (c: LegacyConfig, visible: Rect, d: Display)
      ensures config == c
      ensures State() == LegacyStep(c, Initial, visible, d).state
      ensures Valid()
    {
      config := c;
      visibleViewArea := EmptyRect;
      keyboardFrame := None;
      keyboardShowing := false;
      listeners := [];
      isNavigationBarShow, isRealNavigationBarShow := false, false;
      isFirst := false;
      usableHeightPrevious := 0;
      new;
      var calls := OnGlobalLayout(visible, d);
    }

    /** isNavigationBarShow(context, viewHeight). */
    method ClassifyNavigationBar(viewHeight: int, d: Display)
      modifies this
      ensures LegacyFlags(isNavigationBarShow, isRealNavigationBarShow)
           == ClassifyLegacy(d, viewHeight, old(LegacyFlags(isNavigationBarShow, isRealNavigationBarShow)))
      ensures visibleViewArea == old(visibleViewArea) && keyboardFrame == old(keyboardFrame)
      ensures keyboardShowing == old(keyboardShowing) && listeners == old(listeners)
      ensures isFirst == old(isFirst) && usableHeightPrevious == old(usableHeightPrevious)
    {
      if d.sdkInt >= JELLY_BEAN_MR1 {
        if viewHeight != 0 {
          if viewHeight == d.realSize.y {
            isNavigationBarShow := false;
          } else if viewHeight < d.realSize.y {
            isNavigationBarShow := true;
          }
        }
        isRealNavigationBarShow := d.realSize.y != d.size.y;
      } else {
        if d.hasPermanentMenuKey || d.hasBackKey {
          isNavigationBarShow, isRealNavigationBarShow := false, false;
        } else {
          isNavigationBarShow, isRealNavigationBarShow := true, true;
        }
      }
    }

    /** onGlobalLayout: one layout sample; returns the callbacks made, in order. */
    method OnGlobalLayout(visible: Rect, d: Display) returns (calls: seq<Notification>)
      modifies this
      ensures State() == LegacyStep(config, old(State()), visible, d).state
      ensures calls == LegacyStep(config, old(State()), visible, d).calls
      ensures old(Valid()) ==> Valid()
    {
      ghost var s := State();
      ghost var r := LegacyStep(config, s, visible, d);
      calls := [];
      isFirst := false;
      if visibleViewArea.bottom == 0 {
        isFirst := true;
      }
      visibleViewArea := visible;
      if isFirst {
        ClassifyNavigationBar(visibleViewArea.bottom, d);
      }
      ghost var s2 := if s.visible.bottom == 0
                      then s.(isFirst := true, visible := visible, flags := ClassifyLegacy(d, visible.bottom, s.flags))
                      else s.(isFirst := false, visible := visible);
      assert State() == s2;
      var usableHeightNow := visibleViewArea.bottom - visibleViewArea.top;
      if usableHeightNow != usableHeightPrevious {
        usableHeightPrevious := usableHeightNow;
        var frame := Rect(0, visibleViewArea.bottom, config.metrics.widthPixels, config.metrics.heightPixels);
        assert frame == RawFrame(config, visible);
        if keyboardFrame == Some(frame) {
          assert r == LegacyStepResult(State(), []);
          return;
        }
        if isNavigationBarShow {
          keyboardShowing := frame.Height() > config.navigationBarHeight;
        } else {
          keyboardShowing := frame.Height() > config.statusBarHeight;
        }
        if keyboardShowing {
          if !isNavigationBarShow {
            if isRealNavigationBarShow {
              frame := frame.ShiftTop(config.navigationBarHeight);
            }
          } else {
            if isRealNavigationBarShow {
              frame := frame.ShiftTop(config.navigationBarHeight);
            }
          }
        }
        keyboardFrame := Some(frame);
        calls := NotifyInOrder(listeners, keyboardShowing, frame);
      } else {
        assert r == LegacyStepResult(s2, []);
      }
    }

    method AddOnKeyboardChangeListener(l: ListenerId)
      modifies this
      ensures State() == old(State()).(listeners := old(listeners) + [l])
    {
      listeners := listeners + [l];
    }

    method RemoveOnKeyboardChangeListener(l: ListenerId)
      modifies this
      ensures State() == old(State()).(listeners := RemoveFirst(old(listeners), l))
    {
      listeners := RemoveFirst(listeners, l);
    }

    function GetKeyboardFrame(): Option<Rect> reads this { keyboardFrame }
    function GetVisibleViewArea(): Rect reads this { visibleViewArea }
    /** isAddHeight: whether the real navigation bar is drawn. */
    function IsAddHeight(): bool reads this { isRealNavigationBarShow }
    function IsKeyboardShowing(): bool reads this { keyboardShowing }
  }
}
