/**
 * Child-slot bookkeeping of KeyboardView: it keeps at most one content
 * view and one cover view, with its own child count.
 */
module ViewSlots {
  import opened Options

  /** Which of the view classes a child is an instance of. */
  datatype ViewKind = ContentKind | CoverKind | OtherKind

  /** A child view: its React tag and its class. */
  datatype View = View(id: int, kind: ViewKind)

  /** mContentView, mCoverView and mChildCount. */
  datatype Slots = Slots(content: Option<View>, cover: Option<View>, count: int)

  const NoChildren := Slots(None, None, 0)

  function Present(v: Option<View>): int
  {
    if v.Some? then 1 else 0
  }

  /** Each slot holds a view of its own class, and the count is the number of filled slots. */
  predicate SlotsConsistent(s: Slots)
  {
    && (s.content.Some? ==> s.content.value.kind == ContentKind)
    && (s.cover.Some? ==> s.cover.value.kind == CoverKind)
    && s.count == Present(s.content) + Present(s.cover)
  }

  /** addView(child, index): the index is ignored; the child's class picks the slot. */
  function AddChild(s: Slots, child: View): (r: Slots)
    ensures child.kind == ContentKind ==> r.content == Some(child) && r.cover == s.cover && r.count == s.count + 1
    ensures child.kind == CoverKind ==> r.cover == Some(child) && r.content == s.content && r.count == s.count + 1
    ensures child.kind == OtherKind ==> r == s
  {
    match child.kind
    case ContentKind => s.(content := Some(child), count := s.count + 1)
    case CoverKind => s.(cover := Some(child), count := s.count + 1)
    case OtherKind => s
  }

  /** removeView(child): any content view clears the content slot, any cover view the cover slot. */
  function RemoveChild(s: Slots, child: View): (r: Slots)
    ensures child.kind == ContentKind ==> r.content == None && r.cover == s.cover && r.count == s.count - 1
    ensures child.kind == CoverKind ==> r.cover == None && r.content == s.content && r.count == s.count - 1
    ensures child.kind == OtherKind ==> r == s
  {
    match child.kind
    case ContentKind => s.(content := None, count := s.count - 1)
    case CoverKind => s.(cover := None, count := s.count - 1)
    case OtherKind => s
  }

  /** getChildAt(index): the content view for index 0 when there is one, otherwise the cover view. */
  function ChildAt(s: Slots, index: int): (r: Option<View>)
    ensures r.Some? ==> r == s.content || r == s.cover
    ensures s.content.Some? ==> (r == s.content <==> index == 0 || s.content == s.cover)
    ensures s.content.None? ==> r == s.cover
  {
    if index == 0 && s.content.Some? then s.content else s.cover
  }

  /** removeViewAt(index): removes whatever getChildAt(index) returns; nothing when that is null. */
  function RemoveChildAt(s: Slots, index: int): (r: Slots)
    ensures ChildAt(s, index).None? ==> r == s
    ensures ChildAt(s, index).Some? ==> r == RemoveChild(s, ChildAt(s, index).value)
  {
    if index == 0 && s.content.Some? then RemoveChild(s, s.content.value)
    else if s.cover.Some? then RemoveChild(s, s.cover.value)
    else s
  }

  /**
   * Walking getChildAt over 0 .. getChildCount()-1, as a ViewGroup does,
   * meets only present children, starts at the content view and ends at
   * the cover view.
   */
  lemma {:induction false} ChildAtEnumeratesSlots(s: Slots)
    requires SlotsConsistent(s)
    ensures forall i :: 0 <= i < s.count ==> ChildAt(s, i).Some?
    ensures s.content.Some? ==> ChildAt(s, 0) == s.content
    ensures s.cover.Some? ==> ChildAt(s, s.count - 1) == s.cover
  {
    assert s.content.Some? && s.cover.Some? ==> s.content != s.cover;
  }

  /** Adding into an empty slot, or adding another kind of child, keeps the slots consistent. */
  lemma AddChildKeepsConsistent(s: Slots, child: View)
    requires SlotsConsistent(s)
    requires child.kind == ContentKind ==> s.content.None?
    requires child.kind == CoverKind ==> s.cover.None?
    ensures SlotsConsistent(AddChild(s, child))
  {
  }

  /** Removing a child that fills its slot, or another kind of child, keeps the slots consistent. */
  lemma RemoveChildKeepsConsistent(s: Slots, child: View)
    requires SlotsConsistent(s)
    requires child.kind == ContentKind ==> s.content.Some?
    requires child.kind == CoverKind ==> s.cover.Some?
    ensures SlotsConsistent(RemoveChild(s, child))
  {
  }

  /** removeViewAt keeps the slots consistent, and at an index below the child count removes exactly one child. */
  lemma RemoveChildAtKeepsConsistent(s: Slots, index: int)
    requires SlotsConsistent(s)
    ensures SlotsConsistent(RemoveChildAt(s, index))
    ensures 0 <= index < s.count ==> RemoveChildAt(s, index).count == s.count - 1
  {
    ChildAtEnumeratesSlots(s);
  }

  /** Adding a child into its empty slot and removing it again restores the slots. */
  lemma AddThenRemoveRestores(s: Slots, child: View)
    requires SlotsConsistent(s)
    requires child.kind == ContentKind ==> s.content.None?
    requires child.kind == CoverKind ==> s.cover.None?
    ensures RemoveChild(AddChild(s, child), child) == s
  {
  }

  /** A second content view replaces the first but is counted again: the count no longer matches the slots. */
  lemma SecondContentOvercounts(a: View, b: View)
    requires a.kind == ContentKind && b.kind == ContentKind
    ensures AddChild(AddChild(NoChildren, a), b) == Slots(Some(b), None, 2)
    ensures !SlotsConsistent(AddChild(AddChild(NoChildren, a), b))
  {
  }
}

/**
 * KeyboardView: places the content view in a popup window over the
 * keyboard and sizes the cover view to the rest of the React root view.
 */
module KeyboardViews {
  import opened Options
  import opened Rects
  import opened Platform
  import opened Listeners
  import opened ViewSlots
  import LegacyKeyboard
  import KeyboardStates

  /** A popup window: its size, and the top at which it was shown. */
  datatype Popup = Popup(width: int, height: int, top: int)

  /** A size scheduled for a UIManager.updateNodeSize push. */
  datatype Size = Size(width: int, height: int)

  /** The cover takes the keyboard frame's width and the part of the root above the keyboard. */
  function CoverSize(frame: Rect, rootHeight: int): (r: Size)
    ensures r.width == frame.Width()
    ensures r.height + frame.Height() == rootHeight
  {
    Size(frame.Width(), rootHeight - frame.Height())
  }

  /**
   * What resizeCover works on: whether the cover view has a parent, the
   * last size scheduled for it, and whether a null keyboard frame has been
   * dereferenced.
   */
  datatype CoverState = CoverState(attached: bool, push: Option<Size>, fault: bool)

  /**
   * resizeCover's effect. Without a bound keyboard state, a cover or a root
   * nothing changes; otherwise the cover gets a parent and is sized to
   * CoverSize, or the keyboard frame, still null, is dereferenced.
   */
  function ResizedCover(cs: CoverState, bound: bool, frame: Option<Rect>, hasCover: bool, rootHeight: Option<int>)
    : (r: CoverState)
    ensures !(bound && hasCover && rootHeight.Some?) ==> r == cs
    ensures bound && hasCover && rootHeight.Some? ==> r.attached
    ensures bound && hasCover && rootHeight.Some? && frame.Some? ==>
      r.push == Some(CoverSize(frame.value, rootHeight.value)) && r.fault == cs.fault
    ensures bound && hasCover && rootHeight.Some? && frame.None? ==> r.fault && r.push == cs.push
  {
    if !(bound && hasCover && rootHeight.Some?) then cs
    else if frame.None? then cs.(attached := true, fault := true)
    else cs.(attached := true, push := Some(CoverSize(frame.value, rootHeight.value)))
  }

  /** Resizing the cover twice with the same inputs is the same as resizing it once. */
  lemma ResizeCoverIsIdempotent(cs: CoverState, bound: bool, frame: Option<Rect>, hasCover: bool, rootHeight: Option<int>)
    ensures var once := ResizedCover(cs, bound, frame, hasCover, rootHeight);
      ResizedCover(once, bound, frame, hasCover, rootHeight) == once
  {
  }

  /**
   * A keyboard state whose first sample had usable height 0 has no frame
   * yet, so resizing a present cover against a present root dereferences
   * the null frame.
   */
  lemma CoverFaultsBeforeFirstFrame(cs: CoverState, c: LegacyKeyboard.LegacyConfig, visible: Rect, d: Display,
                                    rootHeight: int)
    requires KeyboardStates.UsableHeight(visible) == 0
    ensures ResizedCover(cs, true, LegacyKeyboard.LegacyStep(c, LegacyKeyboard.Initial, visible, d).state.frame,
                         true, Some(rootHeight)).fault
  {
    LegacyKeyboard.EmptyFirstSampleLeavesNoFrame(c, visible, d);
  }

  /** showPopupWindow(frame)'s create-or-update decision. */
  function PopupFor(popup: Option<Popup>, frame: Rect): (r: Popup)
    // A new popup is placed at the frame's top; an update resizes but never moves it.
    ensures r.width == frame.Width() && r.height == frame.Height()
    ensures r.top == if popup.None? then frame.top else popup.value.top
  {
    if popup.None? then Popup(frame.Width(), frame.Height(), frame.top)
    else popup.value.(width := frame.Width(), height := frame.Height())
  }

  /** Once shown, the popup stays at the first frame's top however the frame changes later. */
  lemma {:induction false} PopupKeepsFirstTop(frames: seq<Rect>, popup: Popup)
    ensures PopupsAfter(Some(popup), frames).Some?
    ensures PopupsAfter(Some(popup), frames).value.top == popup.top
    decreases |frames|
  {
    if frames != [] {
      PopupKeepsFirstTop(frames[1..], PopupFor(Some(popup), frames[0]));
    }
  }

  /** The popup after a sequence of shows. */
  function PopupsAfter(popup: Option<Popup>, frames: seq<Rect>): Option<Popup>
    decreases |frames|
  {
    if frames == [] then popup else PopupsAfter(Some(PopupFor(popup, frames[0])), frames[1..])
  }

  class KeyboardView {
    var contentView: Option<View>
    var coverView: Option<View>
    var childCount: int
    var popup: Option<Popup>
    var keyboardState: LegacyKeyboard.KeyboardState?
    /** mOnKeyboardChangeListener: the listener object made by the last bind with an activity. */
    var changeListener: Option<ListenerId>
    /** mActivityEventListener != null. */
    var activityListenerRegistered: bool
    /** Whether this view is a lifecycle listener of its React context. */
    var lifecycleRegistered: bool
    /** Whether the cover view has a parent (it has been added to the React root view). */
    var coverAttached: bool
    /** The last size scheduled for the content view and for the cover view. */
    var contentPush: Option<Size>
    var coverPush: Option<Size>
    /** Set when resizeCover dereferences a keyboard frame that is still null. */
    var nullFrameFault: bool
    /** Source of identities for the listener objects bind creates. */
    var nextListener: ListenerId

    function Slots(): Slots
      reads this
    {
      ViewSlots.Slots(contentView, coverView, childCount)
    }

    function Cover(): CoverState
      reads this
    {
      CoverState(coverAttached, coverPush, nullFrameFault)
    }

    /** getKeyboardFrame() of the bound keyboard state; None also when none is bound. */
    function BoundFrame(): Option<Rect>
      reads this, keyboardState
    {
      if keyboardState == null then None else keyboardState.keyboardFrame
    }

    /**
     * The slots hold views of their own kind, and a bound keyboard state is
     * valid and holds this view's listener.
     */
    ghost predicate Valid()
      reads this, keyboardState
    {
      && (contentView.Some? ==> contentView.value.kind == ContentKind)
      && (coverView.Some? ==> coverView.value.kind == CoverKind)
      && (keyboardState != null ==>
            keyboardState.Valid() && changeListener.Some? && changeListener.value in keyboardState.listeners)
    }

    /** The constructor binds a keyboard state and registers for lifecycle events. */
    constructor (activity: bool, c: LegacyKeyboard.LegacyConfig, visible: Rect, d: Display)
      ensures Slots() == NoChildren && popup == None && lifecycleRegistered && !coverAttached
      ensures activity ==> fresh(keyboardState) && changeListener == Some(0) && nextListener == 1
                           && keyboardState.listeners == [0] && !activityListenerRegistered
      ensures !activity ==> keyboardState == null && activityListenerRegistered
      ensures Valid()
    {
      contentView, coverView, childCount := None, None, 0;
      popup := None;
      keyboardState := null;
      changeListener := None;
      activityListenerRegistered := false;
      lifecycleRegistered := false;
      coverAttached := false;
      contentPush, coverPush := None, None;
      nullFrameFault := false;
      nextListener := 0;
      new;
      BindKeyboardState(activity, c, visible, d);
      lifecycleRegistered := true;
    }

    /** getChildCount. */
    function GetChildCount(): (r: int)
      reads this
      ensures r == Slots().count
    {
      childCount
    }

    /** getChildAt. */
    function GetChildAt(index: int): (r: Option<View>)
      reads this
      ensures r == ChildAt(Slots(), index)
    {
      if index == 0 && contentView.Some? then contentView else coverView
    }

    /** addView(child, index). */
    method AddView(child: View, index: int, rootHeight: Option<int>)
      requires Valid()
      modifies this
      ensures Slots() == AddChild(old(Slots()), child)
      ensures keyboardState == old(keyboardState) && changeListener == old(changeListener) && Valid()
      ensures lifecycleRegistered == old(lifecycleRegistered) && nextListener == old(nextListener)
      ensures activityListenerRegistered == old(activityListenerRegistered)
      // A content view is shown at once when the keyboard already shows.
      ensures child.kind == ContentKind && keyboardState != null && keyboardState.keyboardShowing ==>
        && popup == Some(PopupFor(old(popup), keyboardState.keyboardFrame.value))
        && contentPush == Some(Size(keyboardState.keyboardFrame.value.Width(), keyboardState.keyboardFrame.value.Height()))
      ensures !(child.kind == ContentKind && keyboardState != null && keyboardState.keyboardShowing) ==>
        popup == old(popup) && contentPush == old(contentPush)
      // A cover view, which has no parent yet, is resized at once.
      ensures child.kind == CoverKind ==>
        Cover() == ResizedCover(old(Cover()).(attached := false), keyboardState != null, BoundFrame(), true, rootHeight)
      ensures child.kind != CoverKind ==> Cover() == old(Cover())
    {
      if child.kind == ContentKind {
        contentView := Some(child);
        childCount := childCount + 1;
        if keyboardState != null && keyboardState.IsKeyboardShowing() {
          ShowPopupWindow(keyboardState.GetKeyboardFrame().value);
        }
      } else if child.kind == CoverKind {
        coverView := Some(child);
        coverAttached := false;
        childCount := childCount + 1;
        ResizeCover(rootHeight);
      }
    }

    /** removeView(child). */
    method RemoveView(child: View)
      requires Valid()
      modifies this
      ensures Slots() == RemoveChild(old(Slots()), child)
      ensures keyboardState == old(keyboardState) && changeListener == old(changeListener) && Valid()
      ensures contentPush == old(contentPush) && lifecycleRegistered == old(lifecycleRegistered)
      ensures activityListenerRegistered == old(activityListenerRegistered) && nextListener == old(nextListener)
      ensures child.kind == ContentKind ==> popup == None && Cover() == old(Cover())
      ensures child.kind == CoverKind ==>
        && popup == old(popup) && coverPush == old(coverPush) && nullFrameFault == old(nullFrameFault)
        && coverAttached == (old(coverView).None? && old(coverAttached))
      ensures child.kind == OtherKind ==> popup == old(popup) && Cover() == old(Cover())
    {
      if child.kind == ContentKind {
        DismissPopupWindow();
        contentView := None;
        childCount := childCount - 1;
      } else if child.kind == CoverKind {
        RemoveCoverFromSuper();
        coverView := None;
        childCount := childCount - 1;
      }
    }

    /** removeViewAt(index). */
    method RemoveViewAt(index: int)
      requires Valid()
      modifies this
      ensures Slots() == RemoveChildAt(old(Slots()), index)
      ensures keyboardState == old(keyboardState) && changeListener == old(changeListener) && Valid()
      ensures contentPush == old(contentPush) && lifecycleRegistered == old(lifecycleRegistered)
      ensures activityListenerRegistered == old(activityListenerRegistered) && nextListener == old(nextListener)
      // Index 0 with a content view removes the content view, which dismisses the popup.
      ensures index == 0 && old(contentView).Some? ==> popup == None && Cover() == old(Cover())
      // Otherwise the cover view is removed, and loses its parent.
      ensures !(index == 0 && old(contentView).Some?) && old(coverView).Some? ==>
        && popup == old(popup) && !coverAttached
        && coverPush == old(coverPush) && nullFrameFault == old(nullFrameFault)
      // removeView(null) does nothing.
      ensures !(index == 0 && old(contentView).Some?) && old(coverView).None? ==>
        popup == old(popup) && Cover() == old(Cover())
    {
      if index == 0 && contentView.Some? {
        RemoveView(contentView.value);
      } else if coverView.Some? {
        RemoveView(coverView.value);
      }
    }

    /** onAttachedToWindow. */
    method OnAttachedToWindow(rootHeight: Option<int>)
      requires Valid()
      modifies this
      ensures Cover() == ResizedCover(old(Cover()), keyboardState != null, BoundFrame(), coverView.Some?, rootHeight)
      ensures Slots() == old(Slots()) && popup == old(popup) && contentPush == old(contentPush)
      ensures keyboardState == old(keyboardState) && changeListener == old(changeListener) && Valid()
      ensures lifecycleRegistered == old(lifecycleRegistered) && nextListener == old(nextListener)
      ensures activityListenerRegistered == old(activityListenerRegistered)
    {
      ResizeCover(rootHeight);
    }

    /** The listener's onKeyboardShown(frame). */
    method OnKeyboardShown(frame: Rect, rootHeight: Option<int>)
      requires Valid()
      modifies this
      ensures contentView.Some? ==>
        popup == Some(PopupFor(old(popup), frame)) && contentPush == Some(Size(frame.Width(), frame.Height()))
      ensures contentView.None? ==> popup == old(popup) && contentPush == old(contentPush)
      ensures Cover() == ResizedCover(old(Cover()), keyboardState != null, BoundFrame(), coverView.Some?, rootHeight)
      ensures Slots() == old(Slots()) && keyboardState == old(keyboardState) && changeListener == old(changeListener)
      ensures lifecycleRegistered == old(lifecycleRegistered) && nextListener == old(nextListener)
      ensures activityListenerRegistered == old(activityListenerRegistered) && Valid()
    {
      ShowPopupWindow(frame);
      ResizeCover(rootHeight);
    }

    /** The listener's onKeyboardClosed(). */
    method OnKeyboardClosed(rootHeight: Option<int>)
      requires Valid()
      modifies this
      ensures popup == None && contentPush == old(contentPush)
      ensures Cover() == ResizedCover(old(Cover()), keyboardState != null, BoundFrame(), coverView.Some?, rootHeight)
      ensures Slots() == old(Slots()) && keyboardState == old(keyboardState) && changeListener == old(changeListener)
      ensures lifecycleRegistered == old(lifecycleRegistered) && nextListener == old(nextListener)
      ensures activityListenerRegistered == old(activityListenerRegistered) && Valid()
    {
      DismissPopupWindow();
      ResizeCover(rootHeight);
    }

    /** onDropInstance (and onHostDestroy). */
    method OnDropInstance()
      requires Valid()
      modifies this, keyboardState
      ensures !lifecycleRegistered && popup == None && keyboardState == null
      ensures coverView.Some? ==> !coverAttached
      ensures coverView.None? ==> coverAttached == old(coverAttached)
      ensures Slots() == old(Slots()) && contentPush == old(contentPush) && coverPush == old(coverPush)
      ensures nullFrameFault == old(nullFrameFault) && changeListener == old(changeListener)
      ensures nextListener == old(nextListener)
      // Unbinding: a bound state loses this view's listener, otherwise the activity listener goes.
      ensures old(keyboardState) != null ==>
        && old(keyboardState).listeners == RemoveFirst(old(keyboardState.listeners), old(changeListener).value)
        && activityListenerRegistered == old(activityListenerRegistered)
      ensures old(keyboardState) == null ==> !activityListenerRegistered
    {
      lifecycleRegistered := false;
      DismissPopupWindow();
      RemoveCoverFromSuper();
      UnbindKeyboardState();
    }

    /** onHostResume: bind again and show the content when the keyboard is already up. */
    method OnHostResume(activity: bool, c: LegacyKeyboard.LegacyConfig, visible: Rect, d: Display)
      requires Valid()
      modifies this
      ensures Slots() == old(Slots()) && Cover() == old(Cover()) && Valid()
      ensures lifecycleRegistered == old(lifecycleRegistered)
      // Binding again: with an activity a fresh keyboard state holding a new listener ...
      ensures activity ==>
        && fresh(keyboardState) && keyboardState.config == c
        && keyboardState.State() == LegacyKeyboard.LegacyStep(c, LegacyKeyboard.Initial, visible, d).state.(listeners := [old(nextListener)])
        && changeListener == Some(old(nextListener)) && nextListener == old(nextListener) + 1
        && activityListenerRegistered == old(activityListenerRegistered)
      // ... and without one the activity listener, registered once.
      ensures !activity ==>
        && keyboardState == old(keyboardState) && changeListener == old(changeListener)
        && nextListener == old(nextListener) && activityListenerRegistered
      // Then the content is shown when the keyboard already shows.
      ensures contentView.Some? && keyboardState != null && keyboardState.keyboardShowing ==>
        && popup == Some(PopupFor(old(popup), keyboardState.keyboardFrame.value))
        && contentPush == Some(Size(keyboardState.keyboardFrame.value.Width(), keyboardState.keyboardFrame.value.Height()))
      ensures !(contentView.Some? && keyboardState != null && keyboardState.keyboardShowing) ==>
        popup == old(popup) && contentPush == old(contentPush)
    {
      BindKeyboardState(activity, c, visible, d);
      if keyboardState != null && keyboardState.IsKeyboardShowing() {
        ShowPopupWindow(keyboardState.GetKeyboardFrame().value);
      }
    }

    /** onHostPause: dismiss and unbind. */
    method OnHostPause()
      requires Valid()
      modifies this, keyboardState
      ensures popup == None && keyboardState == null && Slots() == old(Slots()) && Cover() == old(Cover())
      ensures contentPush == old(contentPush) && changeListener == old(changeListener)
      ensures lifecycleRegistered == old(lifecycleRegistered) && nextListener == old(nextListener)
      ensures old(keyboardState) != null ==>
        && old(keyboardState).listeners == RemoveFirst(old(keyboardState.listeners), old(changeListener).value)
        && activityListenerRegistered == old(activityListenerRegistered)
      ensures old(keyboardState) == null ==> !activityListenerRegistered
    {
      DismissPopupWindow();
      UnbindKeyboardState();
    }

    /**
     * bindKeyboardState: with an activity, a new listener object and a new
     * keyboard state holding it; without one, an activity listener is
     * registered unless one already is.
     */
    method BindKeyboardState(activity: bool, c: LegacyKeyboard.LegacyConfig, visible: Rect, d: Display)
      modifies this
      ensures Slots() == old(Slots()) && popup == old(popup) && Cover() == old(Cover())
      ensures lifecycleRegistered == old(lifecycleRegistered) && contentPush == old(contentPush)
      ensures activity ==>
        && fresh(keyboardState)
        && keyboardState.config == c
        && keyboardState.State() == LegacyKeyboard.LegacyStep(c, LegacyKeyboard.Initial, visible, d).state.(listeners := [old(nextListener)])
        && changeListener == Some(old(nextListener)) && nextListener == old(nextListener) + 1
        && activityListenerRegistered == old(activityListenerRegistered)
        && keyboardState.Valid()
      ensures !activity ==>
        && keyboardState == old(keyboardState) && changeListener == old(changeListener)
        && nextListener == old(nextListener) && activityListenerRegistered
    {
      if activity {
        var l := nextListener;
        nextListener := nextListener + 1;
        changeListener := Some(l);
        var ks := new LegacyKeyboard.KeyboardState(c, visible, d);
        ks.AddOnKeyboardChangeListener(l);
        keyboardState := ks;
      } else if !activityListenerRegistered {
        activityListenerRegistered := true;
      }
    }

    /** unbindKeyboardState: drop the keyboard state, or else the activity listener. */
    method UnbindKeyboardState()
      requires Valid()
      modifies this, keyboardState
      ensures keyboardState == null
      ensures Slots() == old(Slots()) && popup == old(popup) && Cover() == old(Cover())
      ensures lifecycleRegistered == old(lifecycleRegistered) && contentPush == old(contentPush)
      ensures changeListener == old(changeListener) && nextListener == old(nextListener)
      ensures old(keyboardState) != null ==>
        && old(keyboardState).listeners == RemoveFirst(old(keyboardState.listeners), old(changeListener).value)
        && activityListenerRegistered == old(activityListenerRegistered)
      ensures old(keyboardState) == null ==> !activityListenerRegistered
    {
      if keyboardState != null {
        keyboardState.RemoveOnKeyboardChangeListener(changeListener.value);
        keyboardState := null;
      } else if activityListenerRegistered {
        activityListenerRegistered := false;
      }
    }

    /** showPopupWindow(frame): nothing without a content view; otherwise create or resize the popup. */
    method ShowPopupWindow(frame: Rect)
      modifies this
      ensures contentView.None? ==> popup == old(popup) && contentPush == old(contentPush)
      ensures contentView.Some? ==>
        popup == Some(PopupFor(old(popup), frame)) && contentPush == Some(Size(frame.Width(), frame.Height()))
      ensures Slots() == old(Slots()) && keyboardState == old(keyboardState) && changeListener == old(changeListener)
      ensures coverAttached == old(coverAttached) && coverPush == old(coverPush)
      ensures nullFrameFault == old(nullFrameFault)
      ensures lifecycleRegistered == old(lifecycleRegistered) && nextListener == old(nextListener)
      ensures activityListenerRegistered == old(activityListenerRegistered)
    {
      if contentView.Some? {
        if popup.None? {
          popup := Some(Popup(frame.Width(), frame.Height(), frame.top));
        } else {
          popup := Some(popup.value.(width := frame.Width(), height := frame.Height()));
        }
        contentPush := Some(Size(frame.Width(), frame.Height()));
      }
    }

    /**
     * resizeCover, with getReactRootView's height passed in (None when there
     * is no root). Without a keyboard state, cover or root it does nothing;
     * otherwise it attaches the cover to the root and schedules the cover
     * size, or faults on a keyboard frame that is still null.
     */
    method ResizeCover(rootHeight: Option<int>)
      modifies this
      ensures Cover() == ResizedCover(old(Cover()), keyboardState != null, BoundFrame(), coverView.Some?, rootHeight)
      ensures Slots() == old(Slots()) && popup == old(popup) && contentPush == old(contentPush)
      ensures keyboardState == old(keyboardState) && changeListener == old(changeListener)
      ensures lifecycleRegistered == old(lifecycleRegistered) && nextListener == old(nextListener)
      ensures activityListenerRegistered == old(activityListenerRegistered)
    {
      if keyboardState == null || coverView.None? || rootHeight.None? {
        return;
      }
      if !coverAttached {
        coverAttached := true;
      }
      var frame := keyboardState.GetKeyboardFrame();
      if frame.None? {
        nullFrameFault := true;
        return;
      }
      coverPush := Some(Size(frame.value.Width(), rootHeight.value - frame.value.Height()));
    }

    /** dismissPopupWindow. */
    method DismissPopupWindow()
      modifies this
      ensures popup == None
      ensures Slots() == old(Slots()) && keyboardState == old(keyboardState) && changeListener == old(changeListener)
      ensures coverAttached == old(coverAttached) && coverPush == old(coverPush) && contentPush == old(contentPush)
      ensures nullFrameFault == old(nullFrameFault)
      ensures lifecycleRegistered == old(lifecycleRegistered) && nextListener == old(nextListener)
      ensures activityListenerRegistered == old(activityListenerRegistered)
    {
      if popup.Some? {
        popup := None;
      }
    }

    /** removeCoverFromSuper: detaches the cover view from its parent, if it has one. */
    method RemoveCoverFromSuper()
      modifies this
      ensures coverView.Some? ==> !coverAttached
      ensures coverView.None? ==> coverAttached == old(coverAttached)
      ensures Slots() == old(Slots()) && popup == old(popup) && keyboardState == old(keyboardState)
      ensures changeListener == old(changeListener) && nullFrameFault == old(nullFrameFault)
      ensures coverPush == old(coverPush) && contentPush == old(contentPush)
      ensures lifecycleRegistered == old(lifecycleRegistered) && nextListener == old(nextListener)
      ensures activityListenerRegistered == old(activityListenerRegistered)
    {
      if coverView.None? {
        return;
      }
      if coverAttached {
        coverAttached := false;
      }
    }
  }

  /**
   * bindKeyboardState does not unbind an already bound state. After a
   * resume on a bound view and then a pause, the view holds no state, yet
   * the state bound at construction still holds the view's first listener,
   * so that state's layouts keep reaching the view.
   */
  method RebindLeavesStaleListener(c: LegacyKeyboard.LegacyConfig, visible: Rect, d: Display)
    returns (view: KeyboardView, stale: LegacyKeyboard.KeyboardState)
    ensures view.keyboardState == null && view.changeListener == Some(1)
    ensures stale.listeners == [0]
  {
    view := new KeyboardView(true, c, visible, d);
    stale := view.keyboardState;
    view.OnHostResume(true, c, visible, d);
    view.OnHostPause();
  }
}
