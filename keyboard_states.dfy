/**
 * AbstractKeyboardState: the keyboard-visibility state machine driven by
 * global-layout samples, with the device correction of KeyboardStateNormal
 * or KeyboardStateVivoX21OS.
 *
 * Step is the specification of one onGlobalLayoutChanged call on the object's
 * fields (KState); the class AbstractKeyboardState performs it in place and is
 * proved to agree with Step. Run chains steps over a sequence of samples.
 */
module KeyboardStates {
  import opened Options
  import opened Rects
  import opened Platform
  import opened Listeners
  import opened Strategies

  /** What the object is constructed with and never changes. */
  datatype Config = Config(
    strategy: Strategy,
    navigationBarHeight: int,
    statusBarHeight: int,
    metrics: Metrics,
    radiusResource: int)  // R.dimen.vivo_r_height, read by the Vivo subclass

  /** The fields of an AbstractKeyboardState object. */
  datatype KState = KState(
    visible: Rect,              // mVisibleViewArea
    frame: Option<Rect>,        // mKeyboardFrame
    showing: bool,              // mKeyboardShowing
    flags: NavFlags,            // the three navigation-bar flags
    isFirst: bool,              // mIsFirst
    usablePrevious: int,        // usableHeightPrevious
    radius: int,                // mRadioReact (KeyboardStateVivoX21OS)
    listeners: seq<ListenerId>) // mOnKeyboardChangeListeners

  /** The fields before the constructor's first layout pass. */
  const Initial := KState(EmptyRect, None, false, NoFlags, false, 0, 0, [])

  /** One layout sample: the visible display frame and the display answers at that moment. */
  datatype Sample = Sample(visible: Rect, display: Display)

  datatype StepResult = StepResult(state: KState, calls: seq<Notification>)

  /** A showing keyboard always has a stored frame. */
  predicate Valid(s: KState)
  {
    s.showing ==> s.frame.Some?
  }

  function UsableHeight(visible: Rect): int
  {
    visible.bottom - visible.top
  }

  /** The raw keyboard frame: from the visible bottom to the bottom right corner of the screen. */
  function RawFrame(c: Config, visible: Rect): Rect
  {
    Rect(0, visible.bottom, c.metrics.widthPixels, c.metrics.heightPixels)
  }

  /** The height the raw frame must exceed to count as a keyboard. */
  function Threshold(c: Config, f: NavFlags): int
  {
    if f.romBar then c.navigationBarHeight else c.statusBarHeight
  }

  /** The corner radius after the Vivo subclass's lazy load. */
  function LoadRadius(c: Config, radius: int): int
  {
    if c.strategy.VivoX21OS? && radius == 0 then c.radiusResource else radius
  }

  /** isRomNavigationBarShow on the first sample, with the visible bottom and right as view size. */
  function Classified(c: Config, s: KState, visible: Rect, d: Display): KState
  {
    var radius := LoadRadius(c, s.radius);
    s.(radius := radius, flags := Classify(c.strategy, d, radius, visible.bottom, visible.right, s.flags))
  }

  /** The sample gets past both filters: its usable height is new and its raw frame is not the stored one. */
  predicate Emits(c: Config, s: KState, visible: Rect)
  {
    UsableHeight(visible) != s.usablePrevious && s.frame != Some(RawFrame(c, visible))
  }

  /** One onGlobalLayoutChanged call. */
  function Step(c: Config, s: KState, visible: Rect, d: Display): (r: StepResult)
    ensures r.state.visible == visible && r.state.listeners == s.listeners
    // The first-sample test looks at the previous visible bottom.
    ensures r.state.isFirst <==> s.visible.bottom == 0
    // Classification (and the radius load) happens on the first sample only.
    ensures r.state.isFirst ==>
      && r.state.radius == LoadRadius(c, s.radius)
      && r.state.flags == Classify(c.strategy, d, r.state.radius, visible.bottom, visible.right, s.flags)
    ensures !r.state.isFirst ==> r.state.flags == s.flags && r.state.radius == s.radius
    // Whatever happens next, the usable height is remembered.
    ensures r.state.usablePrevious == UsableHeight(visible)
    // A sample that does not get past the filters changes neither frame nor showing and notifies nobody.
    ensures !Emits(c, s, visible) ==>
      r.calls == [] && r.state.frame == s.frame && r.state.showing == s.showing
    // Otherwise showing is decided on the raw frame, and the corrected frame is stored and emitted.
    ensures Emits(c, s, visible) ==>
      var raw := RawFrame(c, visible);
      && r.state.showing == (raw.Height() > Threshold(c, r.state.flags))
      && r.state.frame == Some(DealKeyBoardFrame(c.strategy, r.state.showing, r.state.flags,
                                                 r.state.radius, raw, c.navigationBarHeight))
      && r.calls == Notifications(s.listeners, r.state.showing, r.state.frame.value)
    ensures Valid(s) ==> Valid(r.state)
  {
    var isFirst := s.visible.bottom == 0;
    var s1 := s.(isFirst := isFirst, visible := visible);
    var s2 := if isFirst then Classified(c, s1, visible, d) else s1;
    var usableNow := UsableHeight(visible);
    if usableNow == s.usablePrevious then
      StepResult(s2, [])
    else
      var s3 := s2.(usablePrevious := usableNow);
      var raw := RawFrame(c, visible);
      if s.frame == Some(raw) then
        StepResult(s3, [])
      else
        var showing := raw.Height() > Threshold(c, s3.flags);
        var frame := DealKeyBoardFrame(c.strategy, showing, s3.flags, s3.radius, raw, c.navigationBarHeight);
        StepResult(s3.(showing := showing, frame := Some(frame)), Notifications(s.listeners, showing, frame))
  }

  /** The steps of a sequence of samples, with every callback made along the way. */
  function Run(c: Config, s: KState, samples: seq<Sample>): (r: StepResult)
    ensures r.state.listeners == s.listeners
    ensures Valid(s) ==> Valid(r.state)
    decreases |samples|
  {
    if samples == [] then StepResult(s, [])
    else
      var first := Step(c, s, samples[0].visible, samples[0].display);
      var rest := Run(c, first.state, samples[1..]);
      StepResult(rest.state, first.calls + rest.calls)
  }

  /** Samples whose usable height never changes are noise: no callback, no new frame, no new showing state. */
  lemma {:induction false} UnchangedUsableHeightIsSilent(c: Config, s: KState, samples: seq<Sample>)
    requires forall i :: 0 <= i < |samples| ==> UsableHeight(samples[i].visible) == s.usablePrevious
    ensures Run(c, s, samples).calls == []
    ensures Run(c, s, samples).state.frame == s.frame
    ensures Run(c, s, samples).state.showing == s.showing
    ensures Run(c, s, samples).state.usablePrevious == s.usablePrevious
    decreases |samples|
  {
    if samples != [] {
      var first := Step(c, s, samples[0].visible, samples[0].display);
      UnchangedUsableHeightIsSilent(c, first.state, samples[1..]);
    }
  }

  /** A burst of samples with one usable height notifies at most once: only its first sample can. */
  lemma RepeatedHeightNotifiesAtMostOnce(c: Config, s: KState, x: Sample, xs: seq<Sample>)
    requires forall i :: 0 <= i < |xs| ==> UsableHeight(xs[i].visible) == UsableHeight(x.visible)
    ensures Run(c, s, [x] + xs).calls == Step(c, s, x.visible, x.display).calls
  {
    var first := Step(c, s, x.visible, x.display);
    assert ([x] + xs)[1..] == xs;
    UnchangedUsableHeightIsSilent(c, first.state, xs);
  }

  /**
   * Once a non-degenerate sample has been seen, the navigation-bar
   * classification (and the Vivo radius) never changes again while the
   * visible bottom stays non-zero.
   */
  lemma {:induction false} ClassificationIsStable(c: Config, s: KState, samples: seq<Sample>)
    requires s.visible.bottom != 0
    requires forall i :: 0 <= i < |samples| ==> samples[i].visible.bottom != 0
    ensures Run(c, s, samples).state.flags == s.flags
    ensures Run(c, s, samples).state.radius == s.radius
    ensures samples != [] ==> !Run(c, s, samples).state.isFirst
    decreases |samples|
  {
    if samples != [] {
      var first := Step(c, s, samples[0].visible, samples[0].display);
      ClassificationIsStable(c, first.state, samples[1..]);
    }
  }

  /**
   * The duplicate filter compares the raw frame with the stored, already
   * corrected frame. So when the correction moved the frame, a sample with
   * the same bottom but a new usable height emits the stored frame again.
   */
  lemma StoredFrameCanBeEmittedAgain(c: Config, s: KState, visible: Rect, d: Display)
    requires s.visible.bottom != 0 && visible.bottom == s.visible.bottom
    requires UsableHeight(visible) != s.usablePrevious
    requires s.showing == (RawFrame(c, visible).Height() > Threshold(c, s.flags))
    requires s.frame == Some(DealKeyBoardFrame(c.strategy, s.showing, s.flags, s.radius,
                                               RawFrame(c, visible), c.navigationBarHeight))
    requires s.frame != Some(RawFrame(c, visible))
    ensures Step(c, s, visible, d).state.frame == s.frame
    ensures Step(c, s, visible, d).calls == Notifications(s.listeners, s.showing, s.frame.value)
  {
  }

  /**
   * The state-machine object. Its fields are those of the Java class; the
   * listener list is a sequence the registration methods reassign.
   */
  class AbstractKeyboardState {
    const config: Config
    var visibleViewArea: Rect
    var keyboardFrame: Option<Rect>
    var keyboardShowing: bool
    var listeners: seq<ListenerId>
    var isRomNavigationBarShow: bool
    var isRealNavigationBarShow: bool
    var isNavigationbarShow: bool
    var isFirst: bool
    var usableHeightPrevious: int
    var radioReact: int

    /** The object's fields as a value. */
    function State(): KState
      reads this
    {
      KState(visibleViewArea, keyboardFrame, keyboardShowing,
             NavFlags(isRomNavigationBarShow, isRealNavigationBarShow, isNavigationbarShow),
             isFirst, usableHeightPrevious, radioReact, listeners)
    }

    /** The constructor runs the layout pass once on the first sample; there are no listeners yet. */
    constructor (c: Config, visible: Rect, d: Display)
      ensures config == c
      ensures State() == Step(c, Initial, visible, d).state
      ensures Valid(State())
    {
      config := c;
      visibleViewArea := EmptyRect;
      keyboardFrame := None;
      keyboardShowing := false;
      listeners := [];
      isRomNavigationBarShow, isRealNavigationBarShow, isNavigationbarShow := false, false, false;
      isFirst := false;
      usableHeightPrevious := 0;
      radioReact := 0;
      new;
      var calls := OnGlobalLayoutChanged(visible, d);
    }

    /** isRomNavigationBarShow(context, viewHeight, viewWidth), with the Vivo radius load. */
    method ClassifyNavigationBar(viewHeight: int, viewWidth: int, d: Display)
      modifies this
      ensures radioReact == LoadRadius(config, old(radioReact))
      ensures NavFlags(isRomNavigationBarShow, isRealNavigationBarShow, isNavigationbarShow)
           == Classify(config.strategy, d, radioReact, viewHeight, viewWidth,
                       old(NavFlags(isRomNavigationBarShow, isRealNavigationBarShow, isNavigationbarShow)))
      ensures visibleViewArea == old(visibleViewArea) && keyboardFrame == old(keyboardFrame)
      ensures keyboardShowing == old(keyboardShowing) && listeners == old(listeners)
      ensures isFirst == old(isFirst) && usableHeightPrevious == old(usableHeightPrevious)
    {
      if config.strategy.VivoX21OS? && radioReact == 0 {
        radioReact := config.radiusResource;
      }
      var f := Classify(config.strategy, d, radioReact, viewHeight, viewWidth,
                        NavFlags(isRomNavigationBarShow, isRealNavigationBarShow, isNavigationbarShow));
      isRomNavigationBarShow := f.romBar;
      isRealNavigationBarShow := f.realBar;
      isNavigationbarShow := f.anyBar;
    }

    /** onGlobalLayoutChanged: one layout sample; returns the callbacks made, in order. */
    method OnGlobalLayoutChanged(visible: Rect, d: Display) returns (calls: seq<Notification>)
      modifies this
      ensures State() == Step(config, old(State()), visible, d).state
      ensures calls == Step(config, old(State()), visible, d).calls
    {
      ghost var s := State();
      ghost var r := Step(config, s, visible, d);
      calls := [];
      isFirst := false;
      if visibleViewArea.bottom == 0 {
        isFirst := true;
      }
      visibleViewArea := visible;
      if isFirst {
        ClassifyNavigationBar(visibleViewArea.bottom, visibleViewArea.right, d);
      }
      ghost var s2 := if s.visible.bottom == 0
                      then Classified(config, s.(isFirst := true, visible := visible), visible, d)
                      else s.(isFirst := false, visible := visible);
      assert State() == s2;
      var usableHeightNow := visibleViewArea.bottom - visibleViewArea.top;
      if usableHeightNow != usableHeightPrevious {
        usableHeightPrevious := usableHeightNow;
        var frame := Rect(0, visibleViewArea.bottom, config.metrics.widthPixels, config.metrics.heightPixels);
        assert frame == RawFrame(config, visible);
        if keyboardFrame == Some(frame) {
          assert r == StepResult(State(), []);
          return;
        }
        if isRomNavigationBarShow {
          keyboardShowing := frame.Height() > config.navigationBarHeight;
        } else {
          keyboardShowing := frame.Height() > config.statusBarHeight;
        }
        frame := DealKeyBoardFrame(config.strategy, keyboardShowing,
                                   NavFlags(isRomNavigationBarShow, isRealNavigationBarShow, isNavigationbarShow),
                                   radioReact, frame, config.navigationBarHeight);
        keyboardFrame := Some(frame);
        calls := OnDoListener(frame);
      } else {
        assert r == StepResult(s2, []);
      }
    }

    /** onDoListener: every listener, in registration order, hears shown(frame) or closed. */
    method OnDoListener(frame: Rect) returns (calls: seq<Notification>)
      ensures calls == Notifications(listeners, keyboardShowing, frame)
    {
      calls := NotifyInOrder(listeners, keyboardShowing, frame);
    }

    method AddOnKeyboardChangeListener(l: ListenerId)
      modifies this
      ensures State() == old(State()).(listeners := old(listeners) + [l])
    {
      listeners := listeners + [l];
    }

    method RemoveOnKeyboardChangeListener(l: ListenerId)
      modifies this
      ensures State() == old(State()).(listeners := RemoveFirst(old(listeners), l))
    {
      listeners := RemoveFirst(listeners, l);
    }

    function GetKeyboardFrame(): Option<Rect> reads this { keyboardFrame }
    function GetVisibleViewArea(): Rect reads this { visibleViewArea }
    function IsRealNavigationBarShow(): bool reads this { isRealNavigationBarShow }
    function IsRomNavigationBarShow(): bool reads this { isRomNavigationBarShow }
    function IsNavigationBarShow(): bool reads this { isNavigationbarShow }
    function IsKeyboardShowing(): bool reads this { keyboardShowing }

    /** isInitDataCompelete: the last sample was not a first sample. */
    function IsInitDataComplete(): (r: bool)
      reads this
      ensures r <==> !State().isFirst
    {
      !isFirst
    }

    /** checkExtraHeight of the object's class, from its current flags. */
    function CheckExtraHeight(navigationBarHeight: int): int
      reads this
    {
      Strategies.CheckExtraHeight(config.strategy, State().flags, radioReact, navigationBarHeight)
    }
  }
}
