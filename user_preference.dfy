/**
 * Per-user window placement: on closing, the window's restore bounds and state are saved
 * to the settings; on loading, they are applied back, or the window is centred when no
 * usable size was saved; on a single-monitor system the window is then moved into view.
 *
 * The SystemParameters screen sizes are an input, and so is the single-monitor test.
 */
module UserPreferences {
  import opened Wrappers
  import opened WpfWindow
  import opened AppSettings
  import TitleBar

  /** SystemParameters.PrimaryScreen{Width,Height} and VirtualScreen{Width,Height}. */
  datatype ScreenMetrics = ScreenMetrics(
    primaryWidth: real,
    primaryHeight: real,
    virtualWidth: real,
    virtualHeight: real)

  /**
   * The settings after `Save`: nothing changes for a minimized window; otherwise the restore
   * bounds, the state, whether it is maximized and the matching glyph are recorded, and the
   * theme is kept.
   */
  function SavedValues(v: SettingsRecord, state: WindowState, bounds: Rect): (r: SettingsRecord)
    ensures state == Minimized ==> r == v
    ensures state != Minimized ==>
      r.windowTop == bounds.top && r.windowLeft == bounds.left
      && r.windowHeight == bounds.height && r.windowWidth == bounds.width
      && r.windowState == state && r.isMaximized == (state == Maximized)
      && r.maximumButtonText == Some(if state == Maximized then "2" else "1")
      && r.theme == v.theme
  {
    if state == Minimized then v
    else
      var maximized := state == Maximized;
      v.(windowTop := bounds.top, windowLeft := bounds.left,
         windowHeight := bounds.height, windowWidth := bounds.width,
         windowState := state, isMaximized := maximized,
         maximumButtonText := Some(TitleBar.Glyph(maximized)))
  }

  /**
   * The placement `Load` reads from the settings. It carries a usable size exactly when
   * the saved width and height are positive, which is what `Apply` tests.
   */
  function Loaded(v: SettingsRecord): (r: Placement)
    ensures HasSize(r) <==> v.windowWidth > 0.0 && v.windowHeight > 0.0
    ensures r.state == v.windowState
  {
    Placement(v.windowTop, v.windowLeft, v.windowHeight, v.windowWidth, v.windowState)
  }

  /** `CenterWindow`: the window's centre is put on the centre of the screen; nothing else moves. */
  function Centered(p: Placement, screenWidth: real, screenHeight: real): (r: Placement)
    ensures r.height == p.height && r.width == p.width && r.state == p.state
    ensures 2.0 * r.top + r.height == screenHeight
    ensures 2.0 * r.left + r.width == screenWidth
  {
    p.(top := (screenHeight - p.height) / 2.0, left := (screenWidth - p.width) / 2.0)
  }

  /** A preference describes a usable size. */
  predicate HasSize(stored: Placement) {
    stored.width > 0.0 && stored.height > 0.0
  }

  /** The placement `Apply` sets before the move into view. */
  function AppliedPlacement(stored: Placement, current: Placement, screen: ScreenMetrics): (r: Placement)
    ensures HasSize(stored) ==> r == stored
    ensures !HasSize(stored) ==>
      r.state == current.state && r.height == current.height && r.width == current.width
      && 2.0 * r.top + r.height == screen.primaryHeight && 2.0 * r.left + r.width == screen.primaryWidth
  {
    if HasSize(stored) then stored else Centered(current, screen.primaryWidth, screen.primaryHeight)
  }

  /**
   * One axis of `MoveIntoView`: first pull the far edge back onto the screen, then the
   * near edge. The window ends on the screen when it fits, and at 0 when it does not.
   */
  function ClampAxis(pos: real, size: real, screen: real): (r: real)
    ensures r >= 0.0
    ensures size <= screen ==> r + size <= screen
    ensures size > screen ==> r == 0.0
    ensures 0.0 <= pos && pos + size <= screen ==> r == pos
  {
    var p := if pos + size > screen then screen - size else pos;
    if p < 0.0 then 0.0 else p
  }

  /** The window lies inside the screen. */
  predicate FitsScreen(p: Placement, screenWidth: real, screenHeight: real) {
    0.0 <= p.top && p.top + p.height <= screenHeight && 0.0 <= p.left && p.left + p.width <= screenWidth
  }

  /** `MoveIntoView`, axis by axis; size and state are never touched. */
  function MovedIntoView(p: Placement, screenWidth: real, screenHeight: real): (r: Placement)
    ensures r.height == p.height && r.width == p.width && r.state == p.state
    ensures r.top >= 0.0 && r.left >= 0.0
    ensures p.height <= screenHeight ==> r.top + r.height <= screenHeight
    ensures p.width <= screenWidth ==> r.left + r.width <= screenWidth
    ensures FitsScreen(p, screenWidth, screenHeight) ==> r == p
  {
    p.(top := ClampAxis(p.top, p.height, screenHeight), left := ClampAxis(p.left, p.width, screenWidth))
  }

  /** Moving into view twice is moving into view once. */
  lemma MovedIntoViewIsIdempotent(p: Placement, screenWidth: real, screenHeight: real)
    ensures MovedIntoView(MovedIntoView(p, screenWidth, screenHeight), screenWidth, screenHeight)
      == MovedIntoView(p, screenWidth, screenHeight)
  {
  }

  /** Everything `Apply` does: apply or centre, then move into view on a single monitor. */
  function AppliedInView(stored: Placement, current: Placement, screen: ScreenMetrics, singleMonitor: bool): Placement {
    var p := AppliedPlacement(stored, current, screen);
    if singleMonitor then MovedIntoView(p, screen.virtualWidth, screen.virtualHeight) else p
  }

  /** Saving a window that is not minimized and reading the preference back restores it. */
  lemma SaveLoadApplyRoundTrip(v: SettingsRecord, state: WindowState, bounds: Rect,
                                current: Placement, screen: ScreenMetrics)
    requires state != Minimized && bounds.width > 0.0 && bounds.height > 0.0
    ensures AppliedPlacement(Loaded(SavedValues(v, state, bounds)), current, screen)
      == Placement(bounds.top, bounds.left, bounds.height, bounds.width, state)
  {
  }

  /** When the saved window lies on the screen, moving it into view does not disturb the round trip. */
  lemma SaveLoadApplyInViewRoundTrip(v: SettingsRecord, state: WindowState, bounds: Rect,
                                     current: Placement, screen: ScreenMetrics, singleMonitor: bool)
    requires state != Minimized && bounds.width > 0.0 && bounds.height > 0.0
    requires FitsScreen(Placement(bounds.top, bounds.left, bounds.height, bounds.width, state),
                        screen.virtualWidth, screen.virtualHeight)
    ensures AppliedInView(Loaded(SavedValues(v, state, bounds)), current, screen, singleMonitor)
      == Placement(bounds.top, bounds.left, bounds.height, bounds.width, state)
  {
    SaveLoadApplyRoundTrip(v, state, bounds, current, screen);
  }

  class UserPreference {
    var windowTop: real
    var windowLeft: real
    var windowHeight: real
    var windowWidth: real
    var windowState: WindowState

    function Stored(): Placement
      reads this
    {
      Placement(windowTop, windowLeft, windowHeight, windowWidth, windowState)
    }

    /** The constructor runs `Load`: the preference is read from the settings, and so is IsMaximized. */
    constructor (store: SettingsStore, statics: TitleBar.CustomWindowStatics)
      modifies statics`isMaximized
      ensures Stored() == Loaded(store.values)
      ensures statics.isMaximized == store.values.isMaximized
    {
      windowTop := store.values.windowTop;
      windowLeft := store.values.windowLeft;
      windowHeight := store.values.windowHeight;
      windowWidth := store.values.windowWidth;
      windowState := store.values.windowState;
      new;
      statics.isMaximized := store.values.isMaximized;
    }

    /** `Save`: record the placement of a window that is not minimized, and persist the settings. */
    static method Save(window: Window, store: SettingsStore, statics: TitleBar.CustomWindowStatics)
      modifies store, statics`isMaximized
      ensures store.values == SavedValues(old(store.values), window.windowState, window.restoreBounds)
      ensures window.windowState == Minimized ==>
        store.persisted == old(store.persisted) && statics.isMaximized == old(statics.isMaximized)
      ensures window.windowState != Minimized ==>
        store.persisted == store.values && statics.isMaximized == (window.windowState == Maximized)
    {
      if window.windowState == Minimized {
        return;
      }
      var v := store.values;
      v := v.(windowTop := window.restoreBounds.top, windowLeft := window.restoreBounds.left);
      v := v.(windowHeight := window.restoreBounds.height, windowWidth := window.restoreBounds.width);
      v := v.(windowState := window.windowState, isMaximized := window.windowState == Maximized);
      store.values := v;
      statics.isMaximized := store.values.isMaximized;
      store.values := store.values.(maximumButtonText := Some(if statics.isMaximized then "2" else "1"));
      store.Save();
    }

    /** `Apply`: restore the stored placement, or centre the window; then move it into view on a single monitor. */
    method Apply(window: Window, screen: ScreenMetrics, singleMonitor: bool)
      modifies window`top, window`left, window`height, window`width, window`windowState
      ensures window.CurrentPlacement() == AppliedInView(Stored(), old(window.CurrentPlacement()), screen, singleMonitor)
      ensures HasSize(Stored()) && !singleMonitor ==> window.CurrentPlacement() == Stored()
      ensures !HasSize(Stored()) ==>
        window.windowState == old(window.windowState)
        && window.height == old(window.height) && window.width == old(window.width)
    {
      if windowWidth > 0.0 && windowHeight > 0.0 {
        window.top := windowTop;
        window.left := windowLeft;
        window.height := windowHeight;
        window.width := windowWidth;
        window.windowState := windowState;
      } else {
        CenterWindow(window, screen);
      }
      if singleMonitor {
        MoveIntoView(window, screen);
      }
    }

    /** `MoveIntoView`: the four corrections, in the order the source makes them. */
    static method MoveIntoView(window: Window, screen: ScreenMetrics)
      modifies window`top, window`left
      ensures window.CurrentPlacement()
        == MovedIntoView(old(window.CurrentPlacement()), screen.virtualWidth, screen.virtualHeight)
      ensures window.top >= 0.0 && window.left >= 0.0
      ensures window.height <= screen.virtualHeight ==> window.top + window.height <= screen.virtualHeight
      ensures window.width <= screen.virtualWidth ==> window.left + window.width <= screen.virtualWidth
    {
      if window.top + window.height > screen.virtualHeight {
        window.top := screen.virtualHeight - window.height;
      }
      if window.left + window.width > screen.virtualWidth {
        window.left := screen.virtualWidth - window.width;
      }
      if window.top < 0.0 {
        window.top := 0.0;
      }
      if window.left < 0.0 {
        window.left := 0.0;
      }
    }

    /** `CenterWindow` on the primary screen. */
    static method CenterWindow(window: Window, screen: ScreenMetrics)
      modifies window`top, window`left
      ensures window.CurrentPlacement()
        == Centered(old(window.CurrentPlacement()), screen.primaryWidth, screen.primaryHeight)
    {
      window.top := (screen.primaryHeight - window.height) / 2.0;
      window.left := (screen.primaryWidth - window.width) / 2.0;
    }
  }

  /**
   * Closing a window that is not minimized and opening a new one with the same settings,
   * on a multi-monitor system, puts the new window where the old one would be restored to.
   */
  method CloseAndReopen(closing: Window, opening: Window, store: SettingsStore,
                        statics: TitleBar.CustomWindowStatics, screen: ScreenMetrics)
    requires closing.windowState != Minimized
    requires closing.restoreBounds.width > 0.0 && closing.restoreBounds.height > 0.0
    modifies store, statics, opening
    ensures opening.CurrentPlacement() == old(Placement(
      closing.restoreBounds.top, closing.restoreBounds.left,
      closing.restoreBounds.height, closing.restoreBounds.width, closing.windowState))
    ensures statics.isMaximized == old(closing.windowState == Maximized)
  {
    UserPreference.Save(closing, store, statics);
    var preference := new UserPreference(store, statics);
    preference.Apply(opening, screen, false);
  }
}
