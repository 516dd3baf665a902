# react-native-keyboard (Android core), modelled in Dafny

This project models the Android side of a React Native keyboard component.
The component shows a popup above the soft keyboard, which the app cannot
observe directly. It detects the keyboard by sampling the window's visible
display frame on every global layout.

The model covers the following parts:

- **The keyboard-state machine, in both revisions.**
  - The older `KeyboardState` is module `LegacyKeyboard`.
  - The newer `AbstractKeyboardState` is module `KeyboardStates`.
  - On the first sample, each classifies the navigation bar.
  - Each drops samples whose usable height did not change, and drops frames equal to the stored one.
  - Each decides "shown" on the raw frame, corrects the frame's top for the device, stores it, and notifies the listeners in order.
- **The device strategies** `KeyboardStateNormal` and `KeyboardStateVivoX21OS` (module `Strategies`), and the `KeyboardStateFactory` that picks one from brand, model and SDK level (module `KeyboardStateFactory`).
- **The full-screen adjust-resize detector `AdjustResizeWithFullScreen`** (module `FullScreen`). It is a second open/closed machine, with:
  - a 200 px threshold;
  - a (bottom, right) deduplication key;
  - edge-triggered callbacks;
  - a stored keyboard height;
  - a process-wide singleton.
- **The bookkeeping in `KeyboardView`** (modules `ViewSlots` and `KeyboardViews`):
  - the content and cover child slots;
  - the popup create-or-update decision;
  - the cover-size arithmetic;
  - binding and unbinding of the keyboard state over the host lifecycle.
- **The shadow node's orientation-dependent child size** (module `ShadowViews`).
- **The touch-target latch** of `KeyboardCoverView` and `KeyboardRootViewGroup` (module `Touch`).
- **The memoised parent walk of `ReactRootAwareViewGroup`** (module `ReactRoots`).

## How the model is built

The stateful Java objects are Dafny classes with the same fields. Each
method that changes the object's state is proved against a pure transition
function on a value snapshot of the object (`State()`):

| Class method | Transition function |
|---|---|
| `KeyboardStates.AbstractKeyboardState.OnGlobalLayoutChanged` | `KeyboardStates.Step` |
| `LegacyKeyboard.KeyboardState.OnGlobalLayout` | `LegacyKeyboard.LegacyStep` |
| `FullScreen.AdjustResizeWithFullScreen.PossiblyResizeChildOfContent` | `FullScreen.ResizeStep` |
| `Touch.KeyboardCoverView.OnTouchEvent` | `Touch.LatchStep` |

The properties that span many samples are lemmas about the `Run`
functions, which fold the step over a sequence of samples.

Platform queries become parameters (`Platform.Display`, `Platform.Metrics`):
- the visible display frame, the real and current display sizes, and the menu and back keys;
- the SDK level, brand and model;
- the corner radius resource;
- the React root's height;
- the hit-test target of a touch.

Listener callbacks are returned as a sequence of `Notification` values, in
call order. The full-screen detector instead appends its callbacks to a
`delivered` log, each tagged with the listener it was made on.

Some behaviours of the code are easy to miss, and the model keeps them as written:

- **The dedup test compares against the corrected frame.** The "frame equals the stored frame" filter compares the *raw* frame with the stored *corrected* frame. So once a correction moved the frame, the same corrected frame can be emitted again (`KeyboardStates.StoredFrameCanBeEmittedAgain`).
- **Zero-height frames are not rejected.** A corrected frame of height 0 is still emitted as "shown" when the raw height passed the threshold (`LegacyKeyboard.ZeroHeightFrameIsEmitted`).
- **"First sample" is recomputed on every sample.** It means that the previous visible bottom was 0, so classification runs again whenever the visible bottom had been 0.
- **The constructor call in `KeyboardView` does not match `KeyboardState`.** `KeyboardView` calls `new KeyboardState(view)`, but `KeyboardState.java` declares the constructor with the root view and both bar heights. The model passes the heights (`LegacyConfig`) and the first sample explicitly.
- **`resizeCover` can dereference a null frame.** It dereferences `getKeyboardFrame()` without a null test. The frame is still null after a first sample with zero usable height (`LegacyKeyboard.EmptyFirstSampleLeavesNoFrame`). The model records that dereference as `nullFrameFault` instead of a crash.
- **Unregistering the full-screen detector removes only one listener copy.** Every `initData` adds another copy of the layout listener, while `assistUnRegister` removes one and drops the instance. After a second registration the dropped detector still receives layouts and moves the shared keyboard height (`FullScreen.ReRegisterLeavesListenerAttached`).
- **`isFullscreen` samples twice.** It calls `computeUsableHeight` once for each half of its test, so the two halves can see different frames (`FullScreen.FullScreenAssist.IsFullscreen`).
- **Resuming a bound `KeyboardView` leaks the old keyboard state's listener.** `bindKeyboardState` builds a new `KeyboardState` without unbinding the bound one, and `KeyboardState` never removes its own layout listener. The old state keeps calling the view's old listener even after `onHostPause` (`KeyboardViews.RebindLeavesStaleListener`).
- **The Vivo field names differ.** `KeyboardStateVivoX21OS` writes the flag fields under other names than `AbstractKeyboardState` declares. They are treated as the same three fields (`NavFlags`).

## Model

| member | source | states |
|---|---|---|
| Rects.Rect.ShiftTop | android/src/main/java/im/shimo/react/keyboard/KeyboardStateNormal.java:24 | `top += dy` changes only the top edge; left, right and bottom are kept and the height drops by dy |
| Listeners.Notifications | android/src/main/java/im/shimo/react/keyboard/AbstractKeyboardState.java:155-164 | one call per listener, in list order: shown(frame) for every listener when showing, closed otherwise |
| Listeners.NotifyInOrder | android/src/main/java/im/shimo/react/keyboard/KeyboardState.java:149-156 | the loop over the listener list makes exactly the calls `Notifications` describes |
| Listeners.IndexOf | android/src/main/java/im/shimo/react/keyboard/AbstractKeyboardState.java:174-176 | the index List.remove(Object) finds is the first occurrence of the element |
| Listeners.RemoveFirst | android/src/main/java/im/shimo/react/keyboard/AbstractKeyboardState.java:174-176 | List.remove(Object): an absent element leaves the list as it is; otherwise only its first occurrence is cut out |
| Listeners.RemoveFirstDropsOne | android/src/main/java/im/shimo/react/keyboard/KeyboardState.java:170-172 | removing a listener removes exactly one copy of it (multiset minus one), shortening the list by one iff it was registered |
| Strategies.ClassifyNormal | android/src/main/java/im/shimo/react/keyboard/AbstractKeyboardState.java:70-102 | SDK ≥ 17, view height == real height: rom flag false, and the any-bar flag follows the width (false if equal, true if narrower, otherwise kept). View shorter: both true. Height 0 or over-tall: both kept. Real flag is real height ≠ current height. Below 17: rom and real flags are set together from the menu/back keys and the any-bar flag is untouched |
| Strategies.ClassifyVivo | android/src/main/java/im/shimo/react/keyboard/KeyboardStateVivoX21OS.java:35-71 | the same cases against real size minus the corner radius; real flag is real height ≠ current height + radius; below 17 all three flags take the key-based value |
| Strategies.VivoWithoutRadiusIsNormal | android/src/main/java/im/shimo/react/keyboard/KeyboardStateVivoX21OS.java:47-61 | with radius 0 the Vivo classification is the normal one (SDK ≥ 17) |
| Strategies.ClassifyKeepsRomImpliesBar | android/src/main/java/im/shimo/react/keyboard/AbstractKeyboardState.java:79-92 | for the Vivo strategy, or for either strategy on SDK ≥ 17, classification keeps "rom flag implies any-bar flag" |
| Strategies.NormalBeforeJellyBeanMr1CanBreakRomImpliesBar | android/src/main/java/im/shimo/react/keyboard/AbstractKeyboardState.java:93-100 | below SDK 17 with neither a menu nor a back key, Normal sets the rom flag and leaves the any-bar flag clear, so the invariant does not hold there |
| Strategies.DealKeyBoardFrame | android/src/main/java/im/shimo/react/keyboard/KeyboardStateVivoX21OS.java:74-99 | only top changes. Normal: + navigation bar height iff showing with a real bar, whatever the rom flag (KeyboardStateNormal.java:16-45). Vivo without a rom bar: + radius whether showing or not. Vivo with a rom bar: as Normal |
| Strategies.CheckExtraHeight | android/src/main/java/im/shimo/react/keyboard/KeyboardStateVivoX21OS.java:102-112 | 0 without a real bar; the navigation bar height for Normal (KeyboardStateNormal.java:48-54) or with a rom bar; the radius for Vivo without a rom bar |
| Strategies.ShownCorrectionIsExtraHeight | android/src/main/java/im/shimo/react/keyboard/KeyboardStateNormal.java:17-54 | when showing, the correction applied to top is exactly checkExtraHeight |
| Strategies.VivoCorrectionWithoutAnyBar | android/src/main/java/im/shimo/react/keyboard/KeyboardStateVivoX21OS.java:77-112 | with neither rom nor real bar, Vivo still shifts top by the radius although checkExtraHeight reports 0 |
| KeyboardStateFactory.ContainsIffOccurs | android/src/main/java/im/shimo/react/keyboard/KeyboardStateFactory.java:17 | the executable substring test agrees with "occurs at some index" |
| KeyboardStateFactory.Create | android/src/main/java/im/shimo/react/keyboard/KeyboardStateFactory.java:16-25 | Smartisan iff brand contains "SMARTISAN" or model is "MIX 2" on SDK ≥ 26; Vivo iff not that and model is "vivo X21A"; Normal iff neither; total |
| KeyboardStateFactory.StrategyOf | android/src/main/java/im/shimo/react/keyboard/KeyboardStateFactory.java:19-24 | the Smartisan variant has no modelled strategy; the other two map to their own |
| KeyboardStateFactory.OldMix2IsNormal | android/src/main/java/im/shimo/react/keyboard/KeyboardStateFactory.java:18-23 | "MIX 2" below SDK 26 falls through to Normal |
| KeyboardStateFactory.SmartisanBrandWinsOverVivoModel | android/src/main/java/im/shimo/react/keyboard/KeyboardStateFactory.java:17-21 | the Smartisan test has priority over the vivo model test |
| KeyboardStateFactory.UnknownVendorIsNormal | android/src/main/java/im/shimo/react/keyboard/KeyboardStateFactory.java:22-24 | any brand not containing "SMARTISAN", with any model other than the two special ones, yields Normal |
| KeyboardStateFactory.BrandTestIsContainment | android/src/main/java/im/shimo/react/keyboard/KeyboardStateFactory.java:17 | the brand matches anywhere inside a longer brand string, whatever the model |
| KeyboardStates.Step | android/src/main/java/im/shimo/react/keyboard/AbstractKeyboardState.java:122-153 | visible area stored; first ⇔ previous bottom 0; classification and radius load only when first; usable height remembered; a sample with unchanged usable height or a raw frame equal to the stored frame changes neither frame nor showing and notifies nobody; otherwise showing = raw height > threshold (bar height or status bar height), the strategy-corrected frame is stored and emitted to every listener |
| KeyboardStates.Run | android/src/main/java/im/shimo/react/keyboard/AbstractKeyboardState.java:122-153 | a sequence of layouts keeps the listener list and the state invariant |
| KeyboardStates.UnchangedUsableHeightIsSilent | android/src/main/java/im/shimo/react/keyboard/AbstractKeyboardState.java:133-136 | samples all of the remembered usable height never notify and never change frame or showing |
| KeyboardStates.RepeatedHeightNotifiesAtMostOnce | android/src/main/java/im/shimo/react/keyboard/AbstractKeyboardState.java:133-136 | after one sample, further samples of the same usable height add no listener calls |
| KeyboardStates.ClassificationIsStable | android/src/main/java/im/shimo/react/keyboard/AbstractKeyboardState.java:123-131 | while no visible bottom is 0 the flags and the radius never change again |
| KeyboardStates.StoredFrameCanBeEmittedAgain | android/src/main/java/im/shimo/react/keyboard/AbstractKeyboardState.java:137-151 | the dedup compares the raw frame with the corrected one, so a corrected frame equal to the stored one is notified again |
| KeyboardStates.AbstractKeyboardState.constructor | android/src/main/java/im/shimo/react/keyboard/AbstractKeyboardState.java:105-120 | the new object is the initial state after one layout sample |
| KeyboardStates.AbstractKeyboardState.ClassifyNavigationBar | android/src/main/java/im/shimo/react/keyboard/AbstractKeyboardState.java:70-102 | writes the three flags as the strategy's classification says, loads the radius once, and touches nothing else |
| KeyboardStates.AbstractKeyboardState.OnGlobalLayoutChanged | android/src/main/java/im/shimo/react/keyboard/AbstractKeyboardState.java:122-153 | the new fields and the listener calls are those of `Step` |
| KeyboardStates.AbstractKeyboardState.OnDoListener | android/src/main/java/im/shimo/react/keyboard/AbstractKeyboardState.java:155-164 | one call per registered listener in order, shown(frame) or closed by the showing flag |
| KeyboardStates.AbstractKeyboardState.AddOnKeyboardChangeListener | android/src/main/java/im/shimo/react/keyboard/AbstractKeyboardState.java:170-172 | appends the listener and changes nothing else |
| KeyboardStates.AbstractKeyboardState.RemoveOnKeyboardChangeListener | android/src/main/java/im/shimo/react/keyboard/AbstractKeyboardState.java:174-176 | removes the first occurrence and changes nothing else |
| KeyboardStates.AbstractKeyboardState.IsInitDataComplete | android/src/main/java/im/shimo/react/keyboard/AbstractKeyboardState.java:205-207 | exactly "not first" |
| LegacyKeyboard.ClassifyLegacy | android/src/main/java/im/shimo/react/keyboard/KeyboardState.java:60-86 | SDK ≥ 17: height equal to real ⇒ no bar, shorter ⇒ bar, 0 or taller ⇒ kept; real flag = real height ≠ current height; below 17 both flags false with a menu or back key, true otherwise |
| LegacyKeyboard.CorrectLegacy | android/src/main/java/im/shimo/react/keyboard/KeyboardState.java:123-147 | the frame's top moves down by the bar height exactly when showing with a real bar, whatever the navigation-bar flag |
| LegacyKeyboard.LegacyStep | android/src/main/java/im/shimo/react/keyboard/KeyboardState.java:96-159 | as `KeyboardStates.Step` for the older revision: first-sample classification, usable-height filter, raw-frame dedup, raw-frame threshold, corrected frame stored and emitted; a showing state always has a frame |
| LegacyKeyboard.LegacyRun | android/src/main/java/im/shimo/react/keyboard/KeyboardState.java:96-159 | a sequence of layouts keeps the listener list |
| LegacyKeyboard.StepAgreesWithNormal | android/src/main/java/im/shimo/react/keyboard/KeyboardState.java:96-159 | one layout of the older class behaves as the newer class with the Normal strategy: same calls, states still corresponding |
| LegacyKeyboard.RunAgreesWithNormal | android/src/main/java/im/shimo/react/keyboard/KeyboardState.java:96-159 | the same for every sequence of layouts |
| LegacyKeyboard.InitialStatesCorrespond | android/src/main/java/im/shimo/react/keyboard/KeyboardState.java:89-95 | both revisions start in corresponding states |
| LegacyKeyboard.ZeroHeightFrameIsEmitted | android/src/main/java/im/shimo/react/keyboard/KeyboardState.java:111-156 | a shown keyboard whose corrected frame has height 0 is still notified as shown |
| LegacyKeyboard.EmptyFirstSampleLeavesNoFrame | android/src/main/java/im/shimo/react/keyboard/KeyboardState.java:107-110 | a first sample with usable height 0 leaves the frame null, not showing, and notifies nobody |
| LegacyKeyboard.KeyboardState.constructor | android/src/main/java/im/shimo/react/keyboard/KeyboardState.java:89-164 | the new object is the initial state after the constructor's own onGlobalLayout call |
| LegacyKeyboard.KeyboardState.ClassifyNavigationBar | android/src/main/java/im/shimo/react/keyboard/KeyboardState.java:60-86 | writes the two flags as `ClassifyLegacy` says and touches nothing else |
| LegacyKeyboard.KeyboardState.OnGlobalLayout | android/src/main/java/im/shimo/react/keyboard/KeyboardState.java:96-159 | the new fields and the listener calls are those of `LegacyStep` |
| LegacyKeyboard.KeyboardState.AddOnKeyboardChangeListener | android/src/main/java/im/shimo/react/keyboard/KeyboardState.java:166-168 | appends the listener and changes nothing else |
| LegacyKeyboard.KeyboardState.RemoveOnKeyboardChangeListener | android/src/main/java/im/shimo/react/keyboard/KeyboardState.java:170-172 | removes the first occurrence and changes nothing else |
| FullScreen.ResizeStep | android/src/main/java/im/shimo/react/keyboard/AdjustResizeWithFullScreen.java:96-134 | visible area refreshed; same bottom and right as before ⇒ nothing else changes and no callback; otherwise the key moves, open ⇔ heightPixels − bottom > 200, the stored height becomes the bottom-to-content distance only while open and different from the height difference, opened/closed fire only on an edge, followed by exactly one resize(bottom, 0); no listener ⇒ no callbacks |
| FullScreen.ResizeRun | android/src/main/java/im/shimo/react/keyboard/AdjustResizeWithFullScreen.java:96-134 | a sequence of layouts keeps the listener |
| FullScreen.RepeatedSampleIsSilent | android/src/main/java/im/shimo/react/keyboard/AdjustResizeWithFullScreen.java:98-100 | the same sample twice: the second changes nothing and calls nothing |
| FullScreen.ClosingKeepsKeyboardHeight | android/src/main/java/im/shimo/react/keyboard/AdjustResizeWithFullScreen.java:120-130 | the stored keyboard height is never reset by a closed sample |
| FullScreen.Transitions | android/src/main/java/im/shimo/react/keyboard/AdjustResizeWithFullScreen.java:111-126 | the opened/closed callbacks of a log, without the resizes |
| FullScreen.CallbacksAlternate | android/src/main/java/im/shimo/react/keyboard/AdjustResizeWithFullScreen.java:111-126 | over any sequence of layouts the opened and closed callbacks strictly alternate, starting opposite the initial state, and the final open flag agrees with the last one |
| FullScreen.FullscreenWithinOneScreen | android/src/main/java/im/shimo/react/keyboard/AdjustResizeWithFullScreen.java:141-145 | for values within one and two screens, the modular fullscreen test holds iff the bottom, or the bottom plus keyboard height, is exactly one screen |
| FullScreen.AdjustResizeWithFullScreen.constructor | android/src/main/java/im/shimo/react/keyboard/AdjustResizeWithFullScreen.java:68-80 | fresh detector with empty key, closed, the given listener, the layout listener registered once, and initData's one resize(childBottom, 0) made on the listener if one is given |
| FullScreen.AdjustResizeWithFullScreen.InitData | android/src/main/java/im/shimo/react/keyboard/AdjustResizeWithFullScreen.java:82-94 | a non-null listener replaces the old one, a null one keeps it; one more copy of the layout listener is registered; a resize(childBottom, 0) is made on the listener now set, if any |
| FullScreen.AdjustResizeWithFullScreen.PossiblyResizeChildOfContent | android/src/main/java/im/shimo/react/keyboard/AdjustResizeWithFullScreen.java:96-134 | fields and stored keyboard height are those of `ResizeStep`; its callbacks are all made on the current listener, none without one; listener and registrations kept |
| FullScreen.FullScreenAssist.constructor | android/src/main/java/im/shimo/react/keyboard/AdjustResizeWithFullScreen.java:24-26 | no instance and keyboard height 0 at class load |
| FullScreen.FullScreenAssist.IsInit | android/src/main/java/im/shimo/react/keyboard/AdjustResizeWithFullScreen.java:37-39 | true iff an instance exists |
| FullScreen.FullScreenAssist.AssistRegisterActivity | android/src/main/java/im/shimo/react/keyboard/AdjustResizeWithFullScreen.java:49-55 | an existing instance is reused and re-initialised as `InitData` says (a non-null listener takes over, one more registration, the resize made on the listener now set), keeping its key and visible area; otherwise a fresh one is created with the given listener, one registration, an empty key and visible area |
| FullScreen.FullScreenAssist.AssistUnRegister | android/src/main/java/im/shimo/react/keyboard/AdjustResizeWithFullScreen.java:57-65 | the instance is dropped with one layout-listener registration removed (its state, listener and log untouched); the stored keyboard height survives |
| FullScreen.FullScreenAssist.OnGlobalLayout | android/src/main/java/im/shimo/react/keyboard/AdjustResizeWithFullScreen.java:73-76 | a layout callback, which needs a registration, runs `ResizeStep` on the detector that registered it and the shared keyboard height, even after that detector was dropped; the callbacks are made on that detector's listener |
| FullScreen.FullScreenAssist.IsFullscreen | android/src/main/java/im/shimo/react/keyboard/AdjustResizeWithFullScreen.java:141-145 | false without an instance; otherwise the modular test, its first half on one fresh sample and its second half on another, stopping after the first when it holds; on equal samples it is `IsFullscreenValue`; only the visible area changes |
| FullScreen.Addressed | android/src/main/java/im/shimo/react/keyboard/AdjustResizeWithFullScreen.java:111-129 | each callback of a step is made on mListener, in order |
| FullScreen.AddressedReachesOnlyItsListener | android/src/main/java/im/shimo/react/keyboard/AdjustResizeWithFullScreen.java:111-129 | callbacks made on one listener reach it all, in order, and no other listener |
| FullScreen.NewListenerTakesOverCallbacks | android/src/main/java/im/shimo/react/keyboard/AdjustResizeWithFullScreen.java:82-94 | after re-registering with a second listener, the first has received only its initial resize, and a later opening and resize go to the second alone |
| FullScreen.ReRegisterLeavesListenerAttached | android/src/main/java/im/shimo/react/keyboard/AdjustResizeWithFullScreen.java:49-65 | registering twice and unregistering once leaves the dropped detector's layout listener attached: a later layout still reaches it and its listener, and moves the shared keyboard height, while the assistant reports 0 |
| FullScreen.FullScreenAssist.GetKeyboardHeight | android/src/main/java/im/shimo/react/keyboard/AdjustResizeWithFullScreen.java:147-152 | 0 without an instance, otherwise the stored height |
| FullScreen.FullScreenAssist.GetRemainingHeight | android/src/main/java/im/shimo/react/keyboard/AdjustResizeWithFullScreen.java:160-163 | 0 without an instance, otherwise y plus the result is the visible bottom |
| FullScreen.FullScreenAssist.GetWindowBottom | android/src/main/java/im/shimo/react/keyboard/AdjustResizeWithFullScreen.java:165-170 | 0 without an instance, otherwise the screen height |
| FullScreen.FullScreenAssist.GetUseBottom | android/src/main/java/im/shimo/react/keyboard/AdjustResizeWithFullScreen.java:172-175 | 0 without an instance, otherwise the freshly sampled visible bottom, which is stored; nothing else changes |
| FullScreen.FullScreenAssist.GetUseRight | android/src/main/java/im/shimo/react/keyboard/AdjustResizeWithFullScreen.java:177-180 | 0 without an instance, otherwise the freshly sampled visible right, which is stored; nothing else changes |
| ViewSlots.AddChild | android/src/main/java/im/shimo/react/keyboard/KeyboardView.java:77-89 | a content or cover child fills its slot and counts one more; any other child changes nothing |
| ViewSlots.RemoveChild | android/src/main/java/im/shimo/react/keyboard/KeyboardView.java:106-116 | a content or cover child clears its slot and counts one less; any other child changes nothing |
| ViewSlots.ChildAt | android/src/main/java/im/shimo/react/keyboard/KeyboardView.java:97-103 | index 0 gives the content view if present; every other case gives the cover view (possibly none) |
| ViewSlots.RemoveChildAt | android/src/main/java/im/shimo/react/keyboard/KeyboardView.java:119-125 | removes the child getChildAt gives, or nothing when that is null |
| ViewSlots.ChildAtEnumeratesSlots | android/src/main/java/im/shimo/react/keyboard/KeyboardView.java:92-103 | with consistent slots every index below the count names a child, content first and cover last |
| ViewSlots.AddChildKeepsConsistent | android/src/main/java/im/shimo/react/keyboard/KeyboardView.java:77-89 | adding into an empty slot keeps count = number of filled slots |
| ViewSlots.RemoveChildKeepsConsistent | android/src/main/java/im/shimo/react/keyboard/KeyboardView.java:106-116 | removing a present child keeps the count consistent |
| ViewSlots.RemoveChildAtKeepsConsistent | android/src/main/java/im/shimo/react/keyboard/KeyboardView.java:119-125 | removeViewAt keeps the count consistent and, at an index below the count, removes exactly one child |
| ViewSlots.AddThenRemoveRestores | android/src/main/java/im/shimo/react/keyboard/KeyboardView.java:77-116 | removing the child just added restores the slots |
| ViewSlots.SecondContentOvercounts | android/src/main/java/im/shimo/react/keyboard/KeyboardView.java:77-82 | a second content view replaces the first but the count still grows, so the count no longer matches the slots |
| KeyboardViews.CoverSize | android/src/main/java/im/shimo/react/keyboard/KeyboardView.java:261-265 | the cover is the frame's width and the root height minus the frame's height |
| KeyboardViews.PopupFor | android/src/main/java/im/shimo/react/keyboard/KeyboardView.java:226-235 | the popup gets the frame's size; a new one is placed at the frame's top, an existing one keeps its position |
| KeyboardViews.ResizedCover | android/src/main/java/im/shimo/react/keyboard/KeyboardView.java:250-278 | nothing changes without a bound keyboard state, a cover or a root; otherwise the cover is attached and sized to `CoverSize`, or the null frame is dereferenced and the size left as it was |
| KeyboardViews.ResizeCoverIsIdempotent | android/src/main/java/im/shimo/react/keyboard/KeyboardView.java:250-278 | resizing the cover again with the same inputs changes nothing |
| KeyboardViews.CoverFaultsBeforeFirstFrame | android/src/main/java/im/shimo/react/keyboard/KeyboardView.java:250-278 | after a first sample with zero usable height, resizing a present cover dereferences the null frame |
| KeyboardViews.PopupKeepsFirstTop | android/src/main/java/im/shimo/react/keyboard/KeyboardView.java:233-235 | after any number of later frames the popup is still at the top it was created at |
| KeyboardViews.KeyboardView.constructor | android/src/main/java/im/shimo/react/keyboard/KeyboardView.java:65-69 | no children, no popup, lifecycle registered, and a bound keyboard state holding this view's listener (or the activity listener when there is no activity) |
| KeyboardViews.RebindLeavesStaleListener | android/src/main/java/im/shimo/react/keyboard/KeyboardView.java:154-218 | after construction, a resume with an activity and a pause, the view holds no keyboard state, but the state bound first still holds the view's first listener |
| KeyboardViews.KeyboardView.GetChildCount | android/src/main/java/im/shimo/react/keyboard/KeyboardView.java:92-94 | the recorded count |
| KeyboardViews.KeyboardView.GetChildAt | android/src/main/java/im/shimo/react/keyboard/KeyboardView.java:97-103 | as `ViewSlots.ChildAt` on the view's slots |
| KeyboardViews.KeyboardView.AddView | android/src/main/java/im/shimo/react/keyboard/KeyboardView.java:77-89 | slots updated as `AddChild`; a content view is shown at once when the keyboard shows (popup and content size as `ShowPopupWindow`), else popup and content size are kept; a cover view loses any parent and the cover state becomes `ResizedCover` of that; listeners and bindings unchanged |
| KeyboardViews.KeyboardView.RemoveView | android/src/main/java/im/shimo/react/keyboard/KeyboardView.java:106-116 | slots updated as `RemoveChild`; removing the content dismisses the popup; removing the cover detaches it, keeping its last size; another view changes nothing else |
| KeyboardViews.KeyboardView.RemoveViewAt | android/src/main/java/im/shimo/react/keyboard/KeyboardView.java:119-125 | slots updated as `RemoveChildAt`; index 0 with a content view removes it and dismisses the popup; otherwise a present cover is removed and detached; with no cover nothing else changes; sizes, listeners and bindings unchanged |
| KeyboardViews.KeyboardView.OnAttachedToWindow | android/src/main/java/im/shimo/react/keyboard/KeyboardView.java:128-131 | the cover state becomes `ResizedCover` of the old one with the bound frame; popup, content size, slots, listeners and bindings unchanged |
| KeyboardViews.KeyboardView.OnKeyboardShown | android/src/main/java/im/shimo/react/keyboard/KeyboardView.java:178-182 | with a content view the popup becomes `PopupFor(old popup, frame)` and the content size is the frame's size; then the cover state becomes `ResizedCover`; nothing else changes |
| KeyboardViews.KeyboardView.OnKeyboardClosed | android/src/main/java/im/shimo/react/keyboard/KeyboardView.java:184-188 | the popup is dismissed, the content size kept, and the cover state becomes `ResizedCover`; nothing else changes |
| KeyboardViews.KeyboardView.OnDropInstance | android/src/main/java/im/shimo/react/keyboard/KeyboardView.java:146-151 | lifecycle listener dropped, popup dismissed, a present cover detached with its last size kept; a bound keyboard state loses this view's listener, and with none bound the activity listener is removed |
| KeyboardViews.KeyboardView.OnHostResume | android/src/main/java/im/shimo/react/keyboard/KeyboardView.java:154-159 | with an activity a fresh keyboard state after its first sample is bound, holding only a new listener; without one the activity listener is registered; then the content is shown (popup and size) when the keyboard already shows; the cover is untouched |
| KeyboardViews.KeyboardView.OnHostPause | android/src/main/java/im/shimo/react/keyboard/KeyboardView.java:162-165 | popup dismissed; a bound keyboard state loses this view's listener and is dropped, otherwise the activity listener is removed; cover and content size unchanged |
| KeyboardViews.KeyboardView.BindKeyboardState | android/src/main/java/im/shimo/react/keyboard/KeyboardView.java:172-208 | with an activity: a new listener and a new keyboard state after its first sample, holding only that listener; without: the activity listener is registered |
| KeyboardViews.KeyboardView.UnbindKeyboardState | android/src/main/java/im/shimo/react/keyboard/KeyboardView.java:210-218 | a bound state loses this view's listener and is dropped; otherwise the activity listener is removed |
| KeyboardViews.KeyboardView.ShowPopupWindow | android/src/main/java/im/shimo/react/keyboard/KeyboardView.java:226-248 | nothing without a content view; otherwise the popup becomes `PopupFor` and the content size is the frame's size |
| KeyboardViews.KeyboardView.ResizeCover | android/src/main/java/im/shimo/react/keyboard/KeyboardView.java:250-278 | the cover state becomes `ResizedCover` of the old one with the bound keyboard state's frame; nothing else changes |
| KeyboardViews.KeyboardView.DismissPopupWindow | android/src/main/java/im/shimo/react/keyboard/KeyboardView.java:280-285 | no popup afterwards, nothing else changes |
| KeyboardViews.KeyboardView.RemoveCoverFromSuper | android/src/main/java/im/shimo/react/keyboard/KeyboardView.java:287-296 | a present cover ends with no parent |
| ShadowViews.ChooseChildSize | android/src/main/java/im/shimo/react/keyboard/KeyboardViewShadowView.java:31-39 | portrait (x < y): smallest width and largest height; otherwise largest width and smallest height |
| ShadowViews.PortraitIsNarrowerAndTaller | android/src/main/java/im/shimo/react/keyboard/KeyboardViewShadowView.java:31-39 | for an ordered size range a portrait child is never wider nor shorter than a landscape one |
| ShadowViews.SquareIsLandscape | android/src/main/java/im/shimo/react/keyboard/KeyboardViewShadowView.java:31-35 | a square screen is sized as landscape |
| ShadowViews.Styled | android/src/main/java/im/shimo/react/keyboard/KeyboardViewShadowView.java:41-43 | the child keeps its tag and gets the chosen width, height and FLEX_END |
| ShadowViews.AddChildAt | android/src/main/java/im/shimo/react/keyboard/KeyboardViewShadowView.java:19-44 | the styled child is inserted at i and every other child is unchanged |
| Touch.MaskedAction | android/src/main/java/im/shimo/react/keyboard/KeyboardCoverView.java:53 | the action is the low byte of the raw action |
| Touch.MaskIgnoresPointerIndex | android/src/main/java/im/shimo/react/keyboard/KeyboardCoverView.java:53 | pointer-index bits never change the masked action |
| Touch.LatchStep | android/src/main/java/im/shimo/react/keyboard/KeyboardCoverView.java:48-87 | DOWN while latched: nothing; DOWN while free: latch the hit target; route by the latch (own id ⇒ outside callback if set, else JS); UP or CANCEL releases |
| Touch.LatchRun | android/src/main/java/im/shimo/react/keyboard/KeyboardCoverView.java:48-87 | one dispatch per event |
| Touch.LatchHoldsUntilGestureEnds | android/src/main/java/im/shimo/react/keyboard/KeyboardCoverView.java:64-84 | until UP or CANCEL the latch holds whatever the hit test says, DOWNs are swallowed and every other event follows the latch |
| Touch.GestureEndFreesLatch | android/src/main/java/im/shimo/react/keyboard/KeyboardCoverView.java:64-84 | after UP or CANCEL the next DOWN latches and routes by its own target |
| Touch.KeyboardCoverView.constructor | android/src/main/java/im/shimo/react/keyboard/KeyboardCoverView.java:16-23 | no latch and no outside callback |
| Touch.KeyboardCoverView.SetOnTouchOutsideCallback | android/src/main/java/im/shimo/react/keyboard/KeyboardCoverView.java:105-107 | sets or clears the callback, latch untouched |
| Touch.KeyboardCoverView.OnTouchEvent | android/src/main/java/im/shimo/react/keyboard/KeyboardCoverView.java:48-87 | always handled; new latch and dispatch are `LatchStep` with the view's own id |
| Touch.KeyboardCoverView.OnInterceptTouchEvent | android/src/main/java/im/shimo/react/keyboard/KeyboardCoverView.java:43-45 | the superclass decides, after the latch has run as `OnTouchEvent` (as `LatchStep`, the callback flag kept) |
| Touch.KeyboardRootViewGroup.constructor | android/src/main/java/im/shimo/react/keyboard/KeyboardRootViewGroup.java:25-28 | no children, no container, no latch |
| Touch.KeyboardRootViewGroup.AddView | android/src/main/java/im/shimo/react/keyboard/KeyboardRootViewGroup.java:31-38 | index 0 makes the child the container, other indices keep it; the child is inserted (or appended for -1) |
| Touch.KeyboardRootViewGroup.RemoveView | android/src/main/java/im/shimo/react/keyboard/KeyboardRootViewGroup.java:42-47 | removing the container clears the slot; the child list loses that child |
| Touch.KeyboardRootViewGroup.GetChildAt | android/src/main/java/im/shimo/react/keyboard/KeyboardRootViewGroup.java:50-52 | the child at a valid index, null otherwise |
| Touch.KeyboardRootViewGroup.RemoveViewAt | android/src/main/java/im/shimo/react/keyboard/KeyboardRootViewGroup.java:50-52 | removes the child at a valid index as removeView does; nothing otherwise |
| Touch.KeyboardRootViewGroup.OnTouchEvent | android/src/main/java/im/shimo/react/keyboard/KeyboardRootViewGroup.java:75-111 | always handled; without a container nothing changes; otherwise `LatchStep` with the container as the outside target |
| Touch.KeyboardRootViewGroup.OnInterceptTouchEvent | android/src/main/java/im/shimo/react/keyboard/KeyboardRootViewGroup.java:70-72 | the superclass decides, after `OnTouchEvent` has run: nothing without a container, otherwise `LatchStep` with the container as the outside target; children and container kept |
| ReactRoots.ViewTree.FirstRootAbove | android/src/main/java/im/shimo/react/keyboard/ReactRootAwareViewGroup.java:21-28 | the nearest ReactRootView strictly above a view, if any |
| ReactRoots.ViewTree.constructor | android/src/main/java/im/shimo/react/keyboard/ReactRootAwareViewGroup.java:12-15 | an acyclic view tree starts with no cached roots |
| ReactRoots.ViewTree.GetReactRootView | android/src/main/java/im/shimo/react/keyboard/ReactRootAwareViewGroup.java:17-33 | returns the nearest root above (jumping through intermediate groups' own answers); a cached root is returned without walking; the result is cached iff non-null, so a failed walk is retried; cached answers stay correct |

## Left out

- **In-place Rect mutation.** `dealKeyBoardFrame` mutates the Rect it is given and returns that same object. Rects are values here, so object identity and aliasing of the stored frame are not modelled.
- **`KeyboardStateSmartianOS`.** Its class is not part of this model. The factory returns it as an opaque variant with no strategy.
- **Java `int` overflow.** The model does not model 32-bit overflow in the frame and height arithmetic. Every value is a screen coordinate, far below 2^31.
- **Platform queries and system callbacks.** `getWindowVisibleDisplayFrame`, the display size queries, the key queries, `Build.*` and the radius resource become parameters. `ViewTreeObserver` registration of the full-screen detector is a count of registered copies of its layout listener. Layout callbacks are method calls made by the caller.
- **Notification dispatch.** The notifications returned by `LegacyKeyboard.KeyboardState.OnGlobalLayout` are not delivered automatically to `KeyboardViews.KeyboardView.OnKeyboardShown`/`OnKeyboardClosed`. The caller makes those calls.
- **`updateNodeSize` pushes.** These cross-thread pushes are modelled only as the last size scheduled for the content view and for the cover view. Their timing is not modelled.
- **Popup and input-method calls.** `PopupWindow.showAtLocation`/`dismiss` and `InputMethodManager` calls are reduced to the popup value or left out. RNKeyboardView.java, RNKeyboardModule.java, KeyboardModule.java and KeyboardUtil.java are not part of this model, because they are calls into platform services.
- **View managers.** KeyboardViewManager.java, RNKeyboardViewManager.java, KeyboardContentViewManager.java and KeyboardCoverViewManager.java are not part of this model, because they only register modules and props. KeyboardContentView.java is not part of this model, because it holds no state. The bar heights they look up are constructor inputs.
- **Touch hit testing.** The float hit test and translation offsets become a given integer target tag.
- **Touch.KeyboardRootViewGroup.OnTouchEvent** assumes that the outside callback given at construction is non-null.
- **JavaScript and iOS.** The JavaScript side (rendering, animation, event subscriptions) and the iOS headers are not part of this model.
- **FullScreen.FullScreenAssist.AssistRegisterActivity** requires a positive screen height, because the fullscreen test divides by it. The division by zero that a zero height would cause is not modelled.
- **KeyboardViews.KeyboardView.AddView** assumes that a cover view being added has no parent yet. The model tracks only the cover's own attachment, not a parent it may have elsewhere.
- **ReactRoots.ViewTree.GetReactRootView** works on a fixed view tree. Re-parenting after a root was cached, and the stale answers it would cause, are not modelled.
- **Thread confinement.** Everything runs on one thread; the UI-thread confinement of the Java code is not modelled.
