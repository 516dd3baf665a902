/**
 * The OnKeyboardChangeListener list shared by both keyboard-state revisions:
 * registration (ArrayList.add / ArrayList.remove) and the in-order fan-out of
 * onKeyboardShown(frame) / onKeyboardClosed().
 */
module Listeners {
  import opened Rects

  /** The identity of a registered listener object. */
  type ListenerId = nat

  /** One callback made on one listener. */
  datatype Notification = Shown(listener: ListenerId, frame: Rect) | Closed(listener: ListenerId)

  /** The callback a single listener receives for a transition. */
  function Notify(l: ListenerId, showing: bool, frame: Rect): Notification
  {
    if showing then Shown(l, frame) else Closed(l)
  }

  /** The callbacks of one fan-out: one per registered listener, in list order. */
  function Notifications(listeners: seq<ListenerId>, showing: bool, frame: Rect): (r: seq<Notification>)
    ensures |r| == |listeners|
    ensures forall i :: 0 <= i < |r| ==> r[i].listener == listeners[i]
    ensures forall i :: 0 <= i < |r| ==> (r[i].Shown? <==> showing)
    ensures forall i :: 0 <= i < |r| && r[i].Shown? ==> r[i].frame == frame
  {
    if listeners == [] then []
    else [Notify(listeners[0], showing, frame)] + Notifications(listeners[1..], showing, frame)
  }

  /** The index of the first occurrence of x, as List.indexOf finds it. */
  function IndexOf<T(==)>(s: seq<T>, x: T): (i: nat)
    requires x in s
    ensures i < |s| && s[i] == x
    ensures x !in s[..i]
  {
    if s[0] == x then 0
    else
      var j := IndexOf(s[1..], x);
      assert s[..j + 1] == [s[0]] + s[1..][..j];
      j + 1
  }

  /** List.remove(Object) and ViewGroup.removeView: drops the first occurrence of x, if there is one. */
  function RemoveFirst<T(==)>(s: seq<T>, x: T): (r: seq<T>)
    ensures x !in s ==> r == s
    ensures x in s ==> r == s[..IndexOf(s, x)] + s[IndexOf(s, x) + 1..]
  {
    if s == [] then []
    else if s[0] == x then s[1..]
    else
      var rest := RemoveFirst(s[1..], x);
      assert s == [s[0]] + s[1..];
      if x in s then
        var k := IndexOf(s[1..], x);
        assert IndexOf(s, x) == k + 1;
        assert s[..k + 1] == [s[0]] + s[1..][..k];
        assert s[k + 2..] == s[1..][k + 1..];
        [s[0]] + rest
      else
        [s[0]] + rest
  }

  /** Removing drops exactly one copy of x when x is present, and nothing else. */
  lemma {:induction false} RemoveFirstDropsOne<T>(s: seq<T>, x: T)
    ensures multiset(RemoveFirst(s, x)) == multiset(s) - multiset{x}
    ensures |RemoveFirst(s, x)| == if x in s then |s| - 1 else |s|
  {
    if x in s {
      var i := IndexOf(s, x);
      DropAt(s, i);
    } else {
      assert multiset(s)[x] == 0;
    }
  }

  lemma DropAt<T>(s: seq<T>, i: nat)
    requires i < |s|
    ensures multiset(s[..i] + s[i + 1..]) == multiset(s) - multiset{s[i]}
    ensures |s[..i] + s[i + 1..]| == |s| - 1
  {
    assert s == s[..i] + [s[i]] + s[i + 1..];
    assert multiset(s) == multiset(s[..i] + s[i + 1..]) + multiset{s[i]};
  }

  /**
   * The listener loop of onGlobalLayout (KeyboardState) and onDoListener
   * (AbstractKeyboardState): every registered listener, in order, is told
   * shown(frame) or closed.
   */
  method NotifyInOrder(listeners: seq<ListenerId>, showing: bool, frame: Rect) returns (calls: seq<Notification>)
    ensures calls == Notifications(listeners, showing, frame)
  {
    calls := [];
    var i := 0;
    while i < |listeners|
      invariant 0 <= i <= |listeners|
      invariant |calls| == i
      invariant forall k :: 0 <= k < i ==> calls[k] == Notify(listeners[k], showing, frame)
    {
      calls := calls + [Notify(listeners[i], showing, frame)];
      i := i + 1;
    }
    var spec := Notifications(listeners, showing, frame);
    assert forall k :: 0 <= k < |spec| ==> spec[k] == Notify(listeners[k], showing, frame);
  }
}
