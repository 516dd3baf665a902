/**
 * The touch-target latch shared by KeyboardCoverView and
 * KeyboardRootViewGroup: a DOWN latches the hit-test target for the whole
 * gesture, every event of the gesture is routed by the latched target, and
 * UP or CANCEL releases the latch.
 */
module Touch {
  import opened Options
  import opened Listeners

  const ACTION_MASK: bv32 := 0xff
  const ACTION_DOWN: bv32 := 0
  const ACTION_UP: bv32 := 1
  const ACTION_MOVE: bv32 := 2
  const ACTION_CANCEL: bv32 := 3
  /** The value of mTargetTag when no target is latched. */
  const NO_TARGET: int := -1

  /** Where one event goes. */
  datatype Dispatch =
    | NoDispatch   // nothing is called
    | ToOutside    // the outside-touch callback
    | ToJs         // the JS touch dispatcher

  /** event.getAction() & ACTION_MASK: the action without the pointer index. */
  function MaskedAction(raw: bv32): (r: bv32)
    ensures r <= 0xff
    ensures r == raw & ACTION_MASK
  {
    raw & ACTION_MASK
  }

  /** The pointer-index bits above the low byte never change the masked action. */
  lemma MaskIgnoresPointerIndex(action: bv32, index: bv32)
    requires action <= 0xff
    ensures MaskedAction((index << 8) | action) == action
  {
  }

  predicate EndsGesture(action: bv32)
  {
    action == ACTION_UP || action == ACTION_CANCEL
  }

  /** Where an event goes once the latch holds target. */
  function RouteFor(target: int, owner: int, hasCallback: bool): Dispatch
  {
    if target == owner then (if hasCallback then ToOutside else NoDispatch) else ToJs
  }

  datatype LatchResult = LatchResult(latch: int, dispatch: Dispatch)

  /**
   * One onTouchEvent with a target latched or not. owner is the view whose
   * own tag means "outside": the cover view itself, or the root group's
   * container.
   */
  function LatchStep(latch: int, owner: int, action: bv32, target: int, hasCallback: bool): (r: LatchResult)
    // A second DOWN during a gesture is swallowed and changes nothing.
    ensures action == ACTION_DOWN && latch != NO_TARGET ==> r == LatchResult(latch, NoDispatch)
    // A DOWN without a latch latches the hit-test target and routes by it.
    ensures action == ACTION_DOWN && latch == NO_TARGET ==>
      r == LatchResult(target, RouteFor(target, owner, hasCallback))
    // Any other event is routed by the latch; UP and CANCEL then release it.
    ensures action != ACTION_DOWN ==>
      r.dispatch == RouteFor(latch, owner, hasCallback) &&
      r.latch == (if EndsGesture(action) then NO_TARGET else latch)
  {
    if action == ACTION_DOWN && latch != NO_TARGET then
      LatchResult(latch, NoDispatch)
    else
      var held := if action == ACTION_DOWN then target else latch;
      var dispatch := if held == owner then (if hasCallback then ToOutside else NoDispatch) else ToJs;
      LatchResult(if action == ACTION_CANCEL || action == ACTION_UP then NO_TARGET else held, dispatch)
  }

  /** A touch event: its masked action and the target the hit test finds for it. */
  datatype TouchEvent = TouchEvent(action: bv32, target: int)

  /** A sequence of events through the latch: the final latch and the dispatches in order. */
  function LatchRun(latch: int, owner: int, events: seq<TouchEvent>, hasCallback: bool): (r: (int, seq<Dispatch>))
    ensures |r.1| == |events|
    decreases |events|
  {
    if events == [] then (latch, [])
    else
      var first := LatchStep(latch, owner, events[0].action, events[0].target, hasCallback);
      var rest := LatchRun(first.latch, owner, events[1..], hasCallback);
      (rest.0, [first.dispatch] + rest.1)
  }

  /**
   * While a target is latched and no UP or CANCEL arrives, the latch holds:
   * every DOWN is swallowed and every other event goes where the latched
   * target says, whatever the hit test finds meanwhile.
   */
  lemma {:induction false} LatchHoldsUntilGestureEnds(latch: int, owner: int, events: seq<TouchEvent>, hasCallback: bool)
    requires latch != NO_TARGET
    requires forall i :: 0 <= i < |events| ==> !EndsGesture(events[i].action)
    ensures LatchRun(latch, owner, events, hasCallback).0 == latch
    ensures forall i :: 0 <= i < |events| ==>
      LatchRun(latch, owner, events, hasCallback).1[i]
        == if events[i].action == ACTION_DOWN then NoDispatch else RouteFor(latch, owner, hasCallback)
    decreases |events|
  {
    if events != [] {
      LatchHoldsUntilGestureEnds(latch, owner, events[1..], hasCallback);
      var rest := LatchRun(latch, owner, events[1..], hasCallback);
      forall i | 1 <= i < |events|
        ensures LatchRun(latch, owner, events, hasCallback).1[i] == rest.1[i - 1]
      {
      }
    }
  }

  /** After UP or CANCEL the latch is free again: the next DOWN latches its own target. */
  lemma GestureEndFreesLatch(latch: int, owner: int, end: TouchEvent, down: TouchEvent, hasCallback: bool)
    requires EndsGesture(end.action) && down.action == ACTION_DOWN
    ensures
      var r := LatchRun(latch, owner, [end, down], hasCallback);
      r.0 == down.target && r.1[1] == RouteFor(down.target, owner, hasCallback)
  {
    var first := LatchStep(latch, owner, end.action, end.target, hasCallback);
    assert first.latch == NO_TARGET;
    var second := LatchStep(NO_TARGET, owner, down.action, down.target, hasCallback);
    assert [end, down][1..] == [down];
    assert [down][1..] == [];
    assert second.latch == down.target;
    assert LatchRun(down.target, owner, [], hasCallback) == (down.target, []);
    assert [second.dispatch] + [] == [second.dispatch];
    assert LatchRun(NO_TARGET, owner, [down], hasCallback) == (down.target, [second.dispatch]);
  }

  /** KeyboardCoverView: routes touches on itself to the outside callback. */
  class KeyboardCoverView {
    const id: int
    var targetTag: int
    var hasOutsideCallback: bool

    constructor (id: int)
      ensures this.id == id && targetTag == NO_TARGET && !hasOutsideCallback
    {
      this.id := id;
      targetTag := NO_TARGET;
      hasOutsideCallback := false;
    }

    /** setOnTouchOutsideCallback; a null callback clears it. */
    method SetOnTouchOutsideCallback(present: bool)
      modifies this
      ensures hasOutsideCallback == present && targetTag == old(targetTag)
    {
      hasOutsideCallback := present;
    }

    /** onTouchEvent, with the hit-test result passed in; it always reports the event handled. */
    method OnTouchEvent(rawAction: bv32, target: int) returns (handled: bool, dispatch: Dispatch)
      modifies this
      ensures handled
      ensures LatchResult(targetTag, dispatch)
           == LatchStep(old(targetTag), id, MaskedAction(rawAction), target, hasOutsideCallback)
      ensures hasOutsideCallback == old(hasOutsideCallback)
    {
      var action := rawAction & ACTION_MASK;
      dispatch := NoDispatch;
      if action == ACTION_DOWN {
        if targetTag != NO_TARGET {
          return true, NoDispatch;
        }
        targetTag := target;
      }
      if targetTag == id {
        if hasOutsideCallback {
          dispatch := ToOutside;
        }
      } else {
        dispatch := ToJs;
      }
      if action == ACTION_CANCEL || action == ACTION_UP {
        targetTag := NO_TARGET;
      }
      handled := true;
    }

    /** onInterceptTouchEvent: runs onTouchEvent, which always returns true, so the superclass decides. */
    method OnInterceptTouchEvent(rawAction: bv32, target: int, superIntercepts: bool)
      returns (intercept: bool, dispatch: Dispatch)
      modifies this
      ensures intercept == superIntercepts
      ensures LatchResult(targetTag, dispatch)
           == LatchStep(old(targetTag), id, MaskedAction(rawAction), target, hasOutsideCallback)
      ensures hasOutsideCallback == old(hasOutsideCallback)
    {
      var handled;
      handled, dispatch := OnTouchEvent(rawAction, target);
      intercept := !handled || superIntercepts;
    }
  }

  /** KeyboardRootViewGroup: the popup's root; its first child is the container. */
  class KeyboardRootViewGroup {
    /** The tags of the children, in order (the ViewGroup's own list). */
    var children: seq<int>
    /** mContainerView's tag, if there is a container. */
    var container: Option<int>
    var targetTag: int

    constructor ()
      ensures children == [] && container == None && targetTag == NO_TARGET
    {
      children := [];
      container := None;
      targetTag := NO_TARGET;
    }

    /** addView(child, index): index 0 makes the child the container; -1 appends. */
    method AddView(child: int, index: int)
      requires -1 <= index <= |children|
      modifies this
      ensures index == 0 ==> container == Some(child)
      ensures index != 0 ==> container == old(container)
      ensures index == -1 ==> children == old(children) + [child]
      ensures index >= 0 ==> children == old(children)[..index] + [child] + old(children)[index..]
      ensures targetTag == old(targetTag)
    {
      if index == 0 {
        container := Some(child);
      }
      if index == -1 {
        children := children + [child];
      } else {
        children := children[..index] + [child] + children[index..];
      }
    }

    /** removeView(child): removing the container clears the slot. */
    method RemoveView(child: int)
      modifies this
      ensures container == if old(container) == Some(child) then None else old(container)
      ensures children == RemoveFirst(old(children), child)
      ensures targetTag == old(targetTag)
    {
      if container == Some(child) {
        container := None;
      }
      children := RemoveFirst(children, child);
    }

    /** getChildAt(index): null outside the list. */
    function GetChildAt(index: int): (r: Option<int>)
      reads this
      ensures 0 <= index < |children| ==> r == Some(children[index])
      ensures !(0 <= index < |children|) ==> r == None
    {
      if 0 <= index < |children| then Some(children[index]) else None
    }

    /** removeViewAt(index): removeView(getChildAt(index)); a null child removes nothing. */
    method RemoveViewAt(index: int)
      modifies this
      ensures 0 <= index < |old(children)| ==>
        && children == RemoveFirst(old(children), old(children)[index])
        && container == if old(container) == Some(old(children)[index]) then None else old(container)
      ensures !(0 <= index < |old(children)|) ==> children == old(children) && container == old(container)
      ensures targetTag == old(targetTag)
    {
      var c := GetChildAt(index);
      if c.Some? {
        RemoveView(c.value);
      }
    }

    /**
     * onTouchEvent, with the hit-test result inside the container passed in.
     * Without a container nothing happens; otherwise the latch works as in
     * the cover view with the container as the outside target. The
     * callback given at construction is always present.
     */
    method OnTouchEvent(rawAction: bv32, target: int) returns (handled: bool, dispatch: Dispatch)
      modifies this
      ensures handled
      ensures old(container).None? ==> targetTag == old(targetTag) && dispatch == NoDispatch
      ensures old(container).Some? ==>
        LatchResult(targetTag, dispatch)
          == LatchStep(old(targetTag), old(container).value, MaskedAction(rawAction), target, true)
      ensures children == old(children) && container == old(container)
    {
      dispatch := NoDispatch;
      if container.Some? {
        var action := rawAction & ACTION_MASK;
        if action == ACTION_DOWN {
          if targetTag != NO_TARGET {
            return true, NoDispatch;
          }
          targetTag := target;
        }
        if targetTag == container.value {
          dispatch := ToOutside;
        } else {
          dispatch := ToJs;
        }
        if action == ACTION_CANCEL || action == ACTION_UP {
          targetTag := NO_TARGET;
        }
      }
      handled := true;
    }

    /** onInterceptTouchEvent: onTouchEvent always returns true, so the superclass decides. */
    method OnInterceptTouchEvent(rawAction: bv32, target: int, superIntercepts: bool)
      returns (intercept: bool, dispatch: Dispatch)
      modifies this
      ensures intercept == superIntercepts
      ensures old(container).None? ==> targetTag == old(targetTag) && dispatch == NoDispatch
      ensures old(container).Some? ==>
        LatchResult(targetTag, dispatch)
          == LatchStep(old(targetTag), old(container).value, MaskedAction(rawAction), target, true)
      ensures children == old(children) && container == old(container)
    {
      var handled;
      handled, dispatch := OnTouchEvent(rawAction, target);
      intercept := !handled || superIntercepts;
    }
  }
}
