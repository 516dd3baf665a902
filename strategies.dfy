/**
 * The device-specific parts of AbstractKeyboardState: how the navigation bar
 * is classified on the first layout sample (isRomNavigationBarShow), how the
 * raw keyboard frame is corrected (dealKeyBoardFrame) and how much extra
 * height the cover must give up (checkExtraHeight), for the two subclasses
 * KeyboardStateNormal and KeyboardStateVivoX21OS.
 */
module Strategies {
  import opened Rects
  import opened Platform

  /** The correction strategy: which subclass of AbstractKeyboardState is in use. */
  datatype Strategy = Normal | VivoX21OS

  /**
   * The three navigation-bar flags.
   *   romBar:  mIsRomNavigationBarShow, the layout leaves room for the bar;
   *   realBar: mIsRealNavigationBarShow, the system really draws a bar;
   *   anyBar:  mIsNavigationbarShow, a bar exists below or at the side, orientation ignored.
   */
  datatype NavFlags = NavFlags(romBar: bool, realBar: bool, anyBar: bool)

  /** The flags of a fresh object: Java's default false for every field. */
  const NoFlags := NavFlags(false, false, false)

  /**
   * AbstractKeyboardState.isRomNavigationBarShow, inherited by KeyboardStateNormal:
   * the new flags, given the old ones, the display answers and the visible
   * rectangle's bottom (viewHeight) and right (viewWidth).
   */
  function ClassifyNormal(d: Display, viewHeight: int, viewWidth: int, f: NavFlags): (r: NavFlags)
    // With the real-size query: height equal to the real height means no bar below;
    // then the width tells whether there is one at the side.
    ensures d.sdkInt >= JELLY_BEAN_MR1 && viewHeight != 0 && viewHeight == d.realSize.y ==>
      !r.romBar &&
      r.anyBar == (if viewWidth == d.realSize.x then false
                   else if viewWidth < d.realSize.x then true
                   else f.anyBar)
    // A shorter view means the layout leaves room for a bar.
    ensures d.sdkInt >= JELLY_BEAN_MR1 && viewHeight != 0 && viewHeight < d.realSize.y ==>
      r.romBar && r.anyBar
    // A zero or over-tall view height leaves both layout flags as they were.
    ensures d.sdkInt >= JELLY_BEAN_MR1 && (viewHeight == 0 || viewHeight > d.realSize.y) ==>
      r.romBar == f.romBar && r.anyBar == f.anyBar
    // The real bar is drawn exactly when the real and current heights differ.
    ensures d.sdkInt >= JELLY_BEAN_MR1 ==> r.realBar == (d.realSize.y != d.size.y)
    // Before the real-size query: a menu or back key means no bar; rom and real move together.
    ensures d.sdkInt < JELLY_BEAN_MR1 ==>
      r.romBar == r.realBar == !(d.hasPermanentMenuKey || d.hasBackKey) &&
      r.anyBar == f.anyBar
  {
    if d.sdkInt >= JELLY_BEAN_MR1 then
      var f1 :=
        if viewHeight != 0 then
          if viewHeight == d.realSize.y then
            f.(romBar := false,
               anyBar := if viewWidth == d.realSize.x then false
                         else if viewWidth < d.realSize.x then true
                         else f.anyBar)
          else if viewHeight < d.realSize.y then
            f.(romBar := true, anyBar := true)
          else f
        else f;
      f1.(realBar := d.realSize.y != d.size.y)
    else if d.hasPermanentMenuKey || d.hasBackKey then
      f.(romBar := false, realBar := false)
    else
      f.(romBar := true, realBar := true)
  }

  /**
   * KeyboardStateVivoX21OS.isRomNavigationBarShow: the same comparisons made
   * against the real size less the rounded-corner radius, and below
   * JELLY_BEAN_MR1 all three flags set together.
   */
  function ClassifyVivo(d: Display, radius: int, viewHeight: int, viewWidth: int, f: NavFlags): (r: NavFlags)
    ensures d.sdkInt >= JELLY_BEAN_MR1 && viewHeight != 0 && viewHeight == d.realSize.y - radius ==>
      !r.romBar &&
      r.anyBar == (if viewWidth == d.realSize.x - radius then false
                   else if viewWidth < d.realSize.x - radius then true
                   else f.anyBar)
    ensures d.sdkInt >= JELLY_BEAN_MR1 && viewHeight != 0 && viewHeight < d.realSize.y - radius ==>
      r.romBar && r.anyBar
    ensures d.sdkInt >= JELLY_BEAN_MR1 && (viewHeight == 0 || viewHeight > d.realSize.y - radius) ==>
      r.romBar == f.romBar && r.anyBar == f.anyBar
    ensures d.sdkInt >= JELLY_BEAN_MR1 ==> r.realBar == (d.realSize.y != d.size.y + radius)
    ensures d.sdkInt < JELLY_BEAN_MR1 ==>
      r.romBar == r.realBar == r.anyBar == !(d.hasPermanentMenuKey || d.hasBackKey)
  {
    if d.sdkInt >= JELLY_BEAN_MR1 then
      var f1 :=
        if viewHeight != 0 then
          if viewHeight == d.realSize.y - radius then
            f.(romBar := false,
               anyBar := if viewWidth == d.realSize.x - radius then false
                         else if viewWidth < d.realSize.x - radius then true
                         else f.anyBar)
          else if viewHeight < d.realSize.y - radius then
            f.(romBar := true, anyBar := true)
          else f
        else f;
      f1.(realBar := d.realSize.y != d.size.y + radius)
    else if d.hasPermanentMenuKey || d.hasBackKey then
      NavFlags(false, false, false)
    else
      NavFlags(true, true, true)
  }

  /** The classification the object's own class performs. */
  function Classify(s: Strategy, d: Display, radius: int, viewHeight: int, viewWidth: int, f: NavFlags): NavFlags
  {
    match s
    case Normal => ClassifyNormal(d, viewHeight, viewWidth, f)
    case VivoX21OS => ClassifyVivo(d, radius, viewHeight, viewWidth, f)
  }

  /** With the real-size query available and no corner radius, the Vivo override classifies like the base class. */
  lemma VivoWithoutRadiusIsNormal(d: Display, viewHeight: int, viewWidth: int, f: NavFlags)
    requires d.sdkInt >= JELLY_BEAN_MR1
    ensures ClassifyVivo(d, 0, viewHeight, viewWidth, f) == ClassifyNormal(d, viewHeight, viewWidth, f)
  {
  }

  /** Classification keeps "a bar below implies a bar somewhere" on every path but Normal's pre-JELLY_BEAN_MR1 one. */
  lemma ClassifyKeepsRomImpliesBar(s: Strategy, d: Display, radius: int, viewHeight: int, viewWidth: int, f: NavFlags)
    requires f.romBar ==> f.anyBar
    requires s.VivoX21OS? || d.sdkInt >= JELLY_BEAN_MR1
    ensures var r := Classify(s, d, radius, viewHeight, viewWidth, f); r.romBar ==> r.anyBar
  {
  }

  /**
   * Why the SDK condition above is needed: before JELLY_BEAN_MR1, Normal sets
   * the rom flag from the keys and leaves the any-bar flag as it was.
   */
  lemma NormalBeforeJellyBeanMr1CanBreakRomImpliesBar(d: Display, viewHeight: int, viewWidth: int, f: NavFlags)
    requires d.sdkInt < JELLY_BEAN_MR1 && !d.hasPermanentMenuKey && !d.hasBackKey
    requires !f.romBar && !f.anyBar
    ensures var r := Classify(Normal, d, 0, viewHeight, viewWidth, f); r.romBar && !r.anyBar
  {
  }

  /** KeyboardStateNormal.dealKeyBoardFrame, branch for branch. */
  function DealNormal(showing: bool, f: NavFlags, frame: Rect, navigationBarHeight: int): Rect
  {
    if showing then
      if !f.romBar then
        if f.realBar then frame.ShiftTop(navigationBarHeight) else frame
      else
        if f.realBar then frame.ShiftTop(navigationBarHeight) else frame
    else
      frame
  }

  /** KeyboardStateVivoX21OS.dealKeyBoardFrame, branch for branch. */
  function DealVivo(showing: bool, f: NavFlags, radius: int, frame: Rect, navigationBarHeight: int): Rect
  {
    if showing then
      if !f.romBar then frame.ShiftTop(radius)
      else if f.realBar then frame.ShiftTop(navigationBarHeight)
      else frame
    else
      if !f.romBar then frame.ShiftTop(radius) else frame
  }

  /**
   * dealKeyBoardFrame: the correction applied to the raw frame after the
   * showing decision. Only the top edge ever moves.
   */
  function DealKeyBoardFrame(s: Strategy, showing: bool, f: NavFlags, radius: int, frame: Rect, navigationBarHeight: int): (r: Rect)
    ensures r.left == frame.left && r.right == frame.right && r.bottom == frame.bottom
    // Normal: pushed down by the bar exactly when showing with a real bar, whatever the rom flag.
    ensures s.Normal? ==>
      r.top == frame.top + (if showing && f.realBar then navigationBarHeight else 0)
    // Vivo, layout without a bar: always pushed down by the corner radius, showing or not.
    ensures s.VivoX21OS? && !f.romBar ==> r.top == frame.top + radius
    // Vivo, layout with a bar: as Normal.
    ensures s.VivoX21OS? && f.romBar ==>
      r.top == frame.top + (if showing && f.realBar then navigationBarHeight else 0)
  {
    match s
    case Normal => DealNormal(showing, f, frame, navigationBarHeight)
    case VivoX21OS => DealVivo(showing, f, radius, frame, navigationBarHeight)
  }

  /** KeyboardStateNormal.checkExtraHeight and KeyboardStateVivoX21OS.checkExtraHeight. */
  function CheckExtraHeight(s: Strategy, f: NavFlags, radius: int, navigationBarHeight: int): (r: int)
    ensures !f.realBar ==> r == 0
    ensures f.realBar && (s.Normal? || f.romBar) ==> r == navigationBarHeight
    ensures f.realBar && s.VivoX21OS? && !f.romBar ==> r == radius
  {
    match s
    case Normal => if f.realBar then navigationBarHeight else 0
    case VivoX21OS =>
      if f.realBar then
        if !f.romBar then radius else navigationBarHeight
      else 0
  }

  /**
   * While the keyboard shows, the correction equals the extra height, except
   * on the Vivo path with neither a layout bar nor a real bar.
   */
  lemma ShownCorrectionIsExtraHeight(s: Strategy, f: NavFlags, radius: int, frame: Rect, navigationBarHeight: int)
    requires s.Normal? || f.romBar || f.realBar
    ensures DealKeyBoardFrame(s, true, f, radius, frame, navigationBarHeight).top
            == frame.top + CheckExtraHeight(s, f, radius, navigationBarHeight)
  {
  }

  /** On that one path the two disagree by the radius. */
  lemma VivoCorrectionWithoutAnyBar(f: NavFlags, radius: int, frame: Rect, navigationBarHeight: int)
    requires !f.romBar && !f.realBar
    ensures CheckExtraHeight(VivoX21OS, f, radius, navigationBarHeight) == 0
    ensures DealKeyBoardFrame(VivoX21OS, true, f, radius, frame, navigationBarHeight).top == frame.top + radius
  {
  }
}
