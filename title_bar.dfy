/**
 * The custom window chrome: the minimize and maximize/restore buttons, the glyph shown on
 * the maximize button, and the title-bar gestures (double-click toggles maximize, dragging
 * a maximized window by its title bar restores it under the mouse).
 *
 * CustomWindow derives from the WPF Window; here it holds the Window it extends. Its static
 * property IsMaximized lives in a CustomWindowStatics object shared by every window and by
 * the placement code. Mouse positions and the screen width are inputs.
 *
 * The framework's DragMove is modelled as a no-op. The system move loop it starts then moves
 * the window with the mouse, so the Top and Left these contracts state are the values at the
 * moment the drag starts.
 */
module TitleBar {
  import opened WpfWindow

  datatype MouseButtonState = Released | Pressed

  datatype MouseButton = Left | Middle | Right | XButton1 | XButton2

  /** What the title-bar MouseDown handler reads from its MouseButtonEventArgs. */
  datatype MouseButtonArgs = MouseButtonArgs(leftButton: MouseButtonState, clickCount: int, changedButton: MouseButton)

  /**
   * What MoveAndRestoreWindow reads: the button states of the MouseEventArgs, the mouse's Y
   * inside the window, the mouse position on the screen, and the virtual screen width.
   */
  datatype MouseMoveArgs = MouseMoveArgs(
    leftButton: MouseButtonState,
    middleButton: MouseButtonState,
    rightButton: MouseButtonState,
    positionY: real,
    screenX: real,
    screenY: real,
    virtualScreenWidth: real)

  /** The maximize button's Marlett glyph: "1" draws maximize, "2" draws restore. */
  function Glyph(maximized: bool): string {
    if maximized then "2" else "1"
  }

  /** The state `Maximize` switches to: Normal becomes Maximized, anything else Normal. */
  function Toggled(state: WindowState): WindowState {
    if state == Normal then Maximized else Normal
  }

  /** A title-bar click that `Maximize`s instead of starting a drag. */
  predicate IsDoubleClick(e: MouseButtonArgs) {
    e.leftButton == Pressed && e.clickCount == 2
  }

  /** The conditions under which MoveAndRestoreWindow does anything. */
  predicate RestoreGuard(state: WindowState, resizeMode: ResizeMode, e: MouseMoveArgs) {
    e.rightButton != Pressed && e.middleButton != Pressed && e.leftButton == Pressed
      && state == Maximized && resizeMode != NoResize
  }

  /**
   * The Left a drag-restored window gets: centred under the mouse, but pushed left so that
   * its right edge stays on the virtual screen.
   */
  function RestoredLeft(screenX: real, width: real, screenWidth: real): (r: real)
    ensures r + width <= screenWidth
    ensures r <= screenX - width / 2.0
    ensures r == screenX - width / 2.0 || r + width == screenWidth
    ensures screenX + width / 2.0 <= screenWidth ==> r == screenX - width / 2.0
  {
    var left := screenX - width / 2.0;
    if left + width > screenWidth then screenWidth - width else left
  }

  /**
   * The Top a drag-restored window gets: the mouse keeps its height inside the window,
   * except near the top edge, where the window goes 5 units above the screen.
   */
  function RestoredTop(e: MouseMoveArgs): (r: real)
    ensures e.positionY >= 5.0 ==> r + e.positionY == e.screenY
    ensures e.positionY < 5.0 ==> r < 0.0 && r == -5.0
  {
    if e.positionY < 5.0 then -5.0 else e.screenY - e.positionY
  }

  /** The placement after MoveAndRestoreWindow, given the restore width read from RestoreBounds. */
  function Restored(p: Placement, resizeMode: ResizeMode, width: real, e: MouseMoveArgs): (r: Placement)
    ensures !RestoreGuard(p.state, resizeMode, e) ==> r == p
    ensures RestoreGuard(p.state, resizeMode, e) ==>
      r.state == Normal && r.left + width <= e.virtualScreenWidth
      && r.height == p.height && r.width == p.width
  {
    if RestoreGuard(p.state, resizeMode, e) then
      p.(top := RestoredTop(e), left := RestoredLeft(e.screenX, width, e.virtualScreenWidth), state := Normal)
    else p
  }

  /** Restoring again with the same mouse event changes nothing: the window is no longer maximized. */
  lemma RestoredIsIdempotent(p: Placement, resizeMode: ResizeMode, width: real, e: MouseMoveArgs)
    ensures Restored(Restored(p, resizeMode, width, e), resizeMode, width, e) == Restored(p, resizeMode, width, e)
  {
  }

  /**
   * The state switch of Maximize: it yields Maximized exactly from Normal, two switches
   * return Normal and Maximized to themselves, and Minimized goes to Maximized.
   */
  lemma ToggledAgrees(state: WindowState)
    ensures (Toggled(state) == Maximized) == (state == Normal)
    ensures Toggled(Toggled(Normal)) == Normal && Toggled(Toggled(Maximized)) == Maximized
    ensures Toggled(Toggled(Minimized)) == Maximized
  {
  }

  /** The static part of CustomWindow. */
  class CustomWindowStatics {
    var isMaximized: bool

    constructor ()
      ensures !isMaximized
    {
      isMaximized := false;
    }
  }

  class CustomWindow {
    const window: Window
    const statics: CustomWindowStatics
    var maximumButtonText: string
    /**
     * Every title-bar MouseDown subscribes a new MouseLeftButtonUp/MouseMove handler pair
     * that captures a fresh restore-if-moved flag, and never unsubscribes it. These are the
     * flags of all pairs subscribed so far, in subscription order.
     */
    var restoreIfMoved: seq<bool>

    /**
     * IsMaximized says whether the window is maximized (as its documentation states), and
     * the maximize button shows the glyph for it.
     */
    predicate GlyphAgrees()
      reads this, window, statics
    {
      statics.isMaximized == (window.windowState == Maximized) && maximumButtonText == Glyph(statics.isMaximized)
    }

    constructor (window: Window, statics: CustomWindowStatics)
      ensures this.window == window && this.statics == statics
      ensures maximumButtonText == "1" && restoreIfMoved == []
    {
      this.window := window;
      this.statics := statics;
      maximumButtonText := "1";
      restoreIfMoved := [];
    }

    /** Maximize a normal window, otherwise restore it to normal; keep IsMaximized and the glyph in step. */
    method Maximize()
      modifies this`maximumButtonText, window`windowState, statics`isMaximized
      ensures window.windowState == Toggled(old(window.windowState))
      ensures old(window.windowState) == Normal ==>
        window.windowState == Maximized && statics.isMaximized && maximumButtonText == "2"
      ensures old(window.windowState) != Normal ==>
        window.windowState == Normal && !statics.isMaximized && maximumButtonText == "1"
      ensures statics.isMaximized == (window.windowState == Maximized)
      ensures maximumButtonText == Glyph(statics.isMaximized)
      ensures GlyphAgrees()
    {
      match window.windowState
      case Normal =>
        window.windowState := Maximized;
        statics.isMaximized := true;
        maximumButtonText := "2";
      case _ =>
        window.windowState := Normal;
        statics.isMaximized := false;
        maximumButtonText := "1";
    }

    /** The minimize button: the glyph and IsMaximized are left as they were. */
    method MinimizeEventHandler()
      modifies window`windowState
      ensures window.windowState == Minimized
    {
      window.windowState := Minimized;
    }

    /**
     * The title bar's MouseDown handler: a double click toggles maximize; any other press
     * with the left button on a maximized window arms the new handler pair's flag. In both
     * cases a handler pair is subscribed and the glyph is recomputed.
     */
    method TitleBarMouseDown(e: MouseButtonArgs)
      modifies this`maximumButtonText, this`restoreIfMoved, window`windowState, statics`isMaximized
      ensures IsDoubleClick(e) ==>
        window.windowState == Toggled(old(window.windowState))
        && statics.isMaximized == (window.windowState == Maximized)
      ensures !IsDoubleClick(e) ==>
        window.windowState == old(window.windowState) && statics.isMaximized == old(statics.isMaximized)
      ensures restoreIfMoved == old(restoreIfMoved)
        + [!IsDoubleClick(e) && e.changedButton == Left && old(window.windowState) == Maximized]
      ensures maximumButtonText == "2" <==> window.windowState == Maximized || statics.isMaximized
      ensures maximumButtonText == Glyph(window.windowState == Maximized || statics.isMaximized)
      ensures old(GlyphAgrees()) ==> GlyphAgrees()
    {
      var armed := false;
      if e.leftButton == Pressed && e.clickCount == 2 {
        Maximize();
      } else {
        if e.changedButton == Left && window.windowState == Maximized {
          armed := true;
        }
      }
      restoreIfMoved := restoreIfMoved + [armed];
      maximumButtonText := if window.windowState == Maximized || statics.isMaximized then "2" else "1";
    }

    /** MouseLeftButtonUp: every subscribed handler disarms its flag. */
    method TitleBarMouseLeftButtonUp()
      modifies this`restoreIfMoved
      ensures |restoreIfMoved| == |old(restoreIfMoved)|
      ensures forall i :: 0 <= i < |restoreIfMoved| ==> !restoreIfMoved[i]
    {
      var i := 0;
      while i < |restoreIfMoved|
        invariant 0 <= i <= |restoreIfMoved| == |old(restoreIfMoved)|
        invariant forall j :: 0 <= j < i ==> !restoreIfMoved[j]
      {
        restoreIfMoved := restoreIfMoved[i := false];
        i := i + 1;
      }
    }

    /**
     * MoveAndRestoreWindow: while the left button alone drags a maximized, resizable window,
     * put it back to normal under the mouse; otherwise do nothing.
     */
    method MoveAndRestoreWindow(e: MouseMoveArgs)
      modifies window`top, window`left, window`windowState
      ensures window.CurrentPlacement()
        == Restored(old(window.CurrentPlacement()), window.resizeMode, window.restoreBounds.width, e)
      ensures !RestoreGuard(old(window.windowState), window.resizeMode, e) ==>
        window.CurrentPlacement() == old(window.CurrentPlacement())
      ensures RestoreGuard(old(window.windowState), window.resizeMode, e) ==>
        window.windowState == Normal
        && window.left + window.restoreBounds.width <= e.virtualScreenWidth
        && window.top == (if e.positionY < 5.0 then -5.0 else e.screenY - e.positionY)
    {
      if e.rightButton == Pressed || e.middleButton == Pressed || e.leftButton != Pressed
         || window.windowState != Maximized || window.resizeMode == NoResize {
        return;
      }
      var width := window.restoreBounds.width;
      var left := e.screenX - width / 2.0;
      left := if left + width > e.virtualScreenWidth then e.virtualScreenWidth - width else left;
      window.top := if e.positionY < 5.0 then -5.0 else e.screenY - e.positionY;
      window.left := left;
      window.windowState := Normal;
    }

    /**
     * The MouseMove handler of the pair with index i: an armed flag is consumed before the
     * window is restored, and the glyph is reset to "1".
     */
    method RestoreIfMoved(i: nat, e: MouseMoveArgs)
      requires i < |restoreIfMoved|
      modifies this`restoreIfMoved, this`maximumButtonText, window`top, window`left, window`windowState
      ensures restoreIfMoved == old(restoreIfMoved)[i := false]
      ensures old(restoreIfMoved[i]) ==>
        maximumButtonText == "1" && window.CurrentPlacement()
          == Restored(old(window.CurrentPlacement()), window.resizeMode, window.restoreBounds.width, e)
      ensures !old(restoreIfMoved[i]) ==>
        maximumButtonText == old(maximumButtonText) && window.CurrentPlacement() == old(window.CurrentPlacement())
    {
      if !restoreIfMoved[i] {
        return;
      }
      restoreIfMoved := restoreIfMoved[i := false];
      MoveAndRestoreWindow(e);
      maximumButtonText := "1";
    }

    /**
     * The intended MouseMove handler: an armed flag is consumed and the window is restored
     * as in RestoreIfMoved, but IsMaximized and the glyph are then recomputed from the state
     * the window is actually in. The state may still be Maximized, because
     * MoveAndRestoreWindow returns early when its guard fails.
     */
    method RestoreIfMovedIntended(i: nat, e: MouseMoveArgs)
      requires i < |restoreIfMoved|
      modifies this`restoreIfMoved, this`maximumButtonText, statics`isMaximized
      modifies window`top, window`left, window`windowState
      ensures restoreIfMoved == old(restoreIfMoved)[i := false]
      ensures old(restoreIfMoved[i]) ==>
        window.CurrentPlacement()
          == Restored(old(window.CurrentPlacement()), window.resizeMode, window.restoreBounds.width, e)
        && statics.isMaximized == (window.windowState == Maximized)
        && maximumButtonText == Glyph(statics.isMaximized)
      ensures !old(restoreIfMoved[i]) ==>
        maximumButtonText == old(maximumButtonText) && statics.isMaximized == old(statics.isMaximized)
        && window.CurrentPlacement() == old(window.CurrentPlacement())
      ensures old(restoreIfMoved[i]) || old(GlyphAgrees()) ==> GlyphAgrees()
    {
      if !restoreIfMoved[i] {
        return;
      }
      restoreIfMoved := restoreIfMoved[i := false];
      MoveAndRestoreWindow(e);
      statics.isMaximized := window.windowState == Maximized;
      maximumButtonText := Glyph(statics.isMaximized);
    }

    /**
     * MouseMove on the title bar: every subscribed handler runs, in subscription order.
     * Each armed flag is consumed, so all are disarmed afterwards; if any was armed the
     * window is restored once (later handlers find it no longer maximized).
     */
    method TitleBarMouseMove(e: MouseMoveArgs)
      modifies this`restoreIfMoved, this`maximumButtonText, window`top, window`left, window`windowState
      ensures |restoreIfMoved| == |old(restoreIfMoved)|
      ensures forall i :: 0 <= i < |restoreIfMoved| ==> !restoreIfMoved[i]
      ensures true in old(restoreIfMoved) ==>
        maximumButtonText == "1" && window.CurrentPlacement()
          == Restored(old(window.CurrentPlacement()), window.resizeMode, window.restoreBounds.width, e)
      ensures true !in old(restoreIfMoved) ==>
        maximumButtonText == old(maximumButtonText) && window.CurrentPlacement() == old(window.CurrentPlacement())
    {
      ghost var flags, start, glyph := restoreIfMoved, window.CurrentPlacement(), maximumButtonText;
      ghost var restored := Restored(start, window.resizeMode, window.restoreBounds.width, e);
      var i := 0;
      while i < |restoreIfMoved|
        invariant 0 <= i <= |restoreIfMoved| == |flags|
        invariant forall j :: 0 <= j < i ==> !restoreIfMoved[j]
        invariant restoreIfMoved[i..] == flags[i..]
        invariant true in flags[..i] ==> maximumButtonText == "1" && window.CurrentPlacement() == restored
        invariant true !in flags[..i] ==> maximumButtonText == glyph && window.CurrentPlacement() == start
      {
        RestoredIsIdempotent(start, window.resizeMode, window.restoreBounds.width, e);
        assert restoreIfMoved[i] == flags[i] by {
          assert restoreIfMoved[i..][0] == flags[i..][0];
        }
        RestoreIfMoved(i, e);
        assert flags[..i + 1] == flags[..i] + [flags[i]];
        i := i + 1;
      }
      assert flags[..i] == flags;
    }
  }

  /**
   * Maximizing a normal window twice brings it back to Normal, with IsMaximized false and
   * glyph "1"; its position and size are those it had before.
   */
  method MaximizeTwiceFromNormal(cw: CustomWindow)
    requires cw.window.windowState == Normal
    modifies cw, cw.window, cw.statics
    ensures cw.window.windowState == Normal && !cw.statics.isMaximized && cw.maximumButtonText == "1"
    ensures cw.window.CurrentPlacement() == old(cw.window.CurrentPlacement())
  {
    cw.Maximize();
    cw.Maximize();
  }

  /**
   * Maximize, drag the title bar to restore, release, and click the title bar once: the
   * window is Normal, but IsMaximized was left true, so the glyph shows "restore".
   */
  method DragRestoreThenClickShowsRestoreGlyph() returns (state: WindowState, isMaximized: bool, glyph: string)
    ensures state == Normal && isMaximized && glyph == "2"
  {
    var w := new Window(100.0, 100.0, 600.0, 800.0, Normal, CanResize, Rect(100.0, 100.0, 800.0, 600.0));
    var statics := new CustomWindowStatics();
    var cw := new CustomWindow(w, statics);
    cw.Maximize();
    cw.TitleBarMouseDown(MouseButtonArgs(Pressed, 1, Left));
    cw.TitleBarMouseMove(MouseMoveArgs(Pressed, Released, Released, 12.0, 700.0, 12.0, 1920.0));
    cw.TitleBarMouseLeftButtonUp();
    cw.TitleBarMouseDown(MouseButtonArgs(Pressed, 1, Left));
    state, isMaximized, glyph := w.windowState, statics.isMaximized, cw.maximumButtonText;
  }

  /**
   * Maximize a window, press on its title bar, then move the mouse with the right button
   * held: MoveAndRestoreWindow returns at its guard, so the window stays Maximized, yet the
   * handler has set the glyph to "1" (maximize).
   */
  method ArmedMoveWithRightButtonShowsMaximizeGlyph() returns (state: WindowState, isMaximized: bool, glyph: string)
    ensures state == Maximized && isMaximized && glyph == "1"
  {
    var w := new Window(100.0, 100.0, 600.0, 800.0, Normal, CanResize, Rect(100.0, 100.0, 800.0, 600.0));
    var statics := new CustomWindowStatics();
    var cw := new CustomWindow(w, statics);
    cw.Maximize();
    cw.TitleBarMouseDown(MouseButtonArgs(Pressed, 1, Left));
    cw.TitleBarMouseMove(MouseMoveArgs(Pressed, Released, Pressed, 12.0, 700.0, 12.0, 1920.0));
    state, isMaximized, glyph := w.windowState, statics.isMaximized, cw.maximumButtonText;
  }

  /** The same gesture with the intended handler: the window stays Maximized and shows "2". */
  method ArmedMoveWithRightButtonIntendedKeepsRestoreGlyph() returns (state: WindowState, isMaximized: bool, glyph: string)
    ensures state == Maximized && isMaximized && glyph == "2"
  {
    var w := new Window(100.0, 100.0, 600.0, 800.0, Normal, CanResize, Rect(100.0, 100.0, 800.0, 600.0));
    var statics := new CustomWindowStatics();
    var cw := new CustomWindow(w, statics);
    cw.Maximize();
    cw.TitleBarMouseDown(MouseButtonArgs(Pressed, 1, Left));
    cw.RestoreIfMovedIntended(0, MouseMoveArgs(Pressed, Released, Pressed, 12.0, 700.0, 12.0, 1920.0));
    state, isMaximized, glyph := w.windowState, statics.isMaximized, cw.maximumButtonText;
  }

  /** The same gesture with the intended handler: the glyph of the normal window is "1". */
  method DragRestoreIntendedThenClickShowsMaximizeGlyph() returns (state: WindowState, isMaximized: bool, glyph: string)
    ensures state == Normal && !isMaximized && glyph == "1"
  {
    var w := new Window(100.0, 100.0, 600.0, 800.0, Normal, CanResize, Rect(100.0, 100.0, 800.0, 600.0));
    var statics := new CustomWindowStatics();
    var cw := new CustomWindow(w, statics);
    cw.Maximize();
    cw.TitleBarMouseDown(MouseButtonArgs(Pressed, 1, Left));
    cw.RestoreIfMovedIntended(0, MouseMoveArgs(Pressed, Released, Released, 12.0, 700.0, 12.0, 1920.0));
    cw.TitleBarMouseLeftButtonUp();
    cw.TitleBarMouseDown(MouseButtonArgs(Pressed, 1, Left));
    state, isMaximized, glyph := w.windowState, statics.isMaximized, cw.maximumButtonText;
  }
}
