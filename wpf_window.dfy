/**
 * The part of the WPF window that the window chrome and the placement code read and write:
 * position and size (doubles, modelled as reals), the window state, the resize mode and
 * the restore bounds the framework keeps for a maximized or minimized window.
 */
module WpfWindow {

  datatype WindowState = Normal | Minimized | Maximized

  datatype ResizeMode = NoResize | CanMinimize | CanResize | CanResizeWithGrip

  /** System.Windows.Rect, as exposed by Window.RestoreBounds. */
  datatype Rect = Rect(left: real, top: real, width: real, height: real)

  /** Everything a saved window preference describes. */
  datatype Placement = Placement(top: real, left: real, height: real, width: real, state: WindowState)

  class Window {
    var top: real
    var left: real
    var height: real
    var width: real
    var windowState: WindowState
    var resizeMode: ResizeMode
    var restoreBounds: Rect

    constructor (top: real, left: real, height: real, width: real, state: WindowState,
                 resizeMode: ResizeMode, restoreBounds: Rect)
      ensures CurrentPlacement() == Placement(top, left, height, width, state)
      ensures this.resizeMode == resizeMode && this.restoreBounds == restoreBounds
    {
      this.top, this.left, this.height, this.width := top, left, height, width;
      this.windowState := state;
      this.resizeMode, this.restoreBounds := resizeMode, restoreBounds;
    }

    function CurrentPlacement(): Placement
      reads this
    {
      Placement(top, left, height, width, windowState)
    }
  }
}
