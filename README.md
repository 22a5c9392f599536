# UserSetting window chrome — a Dafny model

This project models the small, self-contained logic of a WPF desktop application with
custom window chrome, per-user window placement and runtime theme switching:

- **MaximizeWindowBase** (`maximize_window_base.dfy`): the Win32 `RECT` value type
  (`Width`, `Height`, `IsEmpty`, `==`, `!=`, `Equals`, `GetHashCode`, `ToString`).
  It also models the `WM_GETMINMAXINFO` hook, which fits a maximized window to its
  monitor's work area, and the `WindowProc` message dispatch.
- **TitleBar** (`title_bar.dfy`): the `CustomWindow` state machine. It covers the
  maximize/restore toggle, minimizing, and the maximize button's Marlett glyph ("1" means
  maximize, "2" means restore). It also covers the title-bar gesture handler: each
  mouse-down subscribes a new pair of closures that share a "restore if moved" flag.
  Finally it covers `MoveAndRestoreWindow`, which puts a maximized window back to normal
  under the mouse when the user drags the title bar.
- **UserPreferences** (`user_preference.dfy`): `Load`, `Save`, `Apply`, `MoveIntoView`
  and `CenterWindow`, which move window placement between a window and the settings.
- **ViewModels** (`main_view_model.dfy`): the fixed theme catalogue, the rule that builds
  a theme URI from a colour name, `SetUiTheme`, and the start-up theme URI App builds.
- Supporting modules:
  - `CSharpInt` (`csharp_int.dfy`): C# unchecked 32-bit `int` arithmetic, `Math.Abs(int)`
    and `int.ToString()`.
  - `WpfWindow` (`wpf_window.dfy`): the framework `Window` fields the code reads and writes.
  - `AppSettings` (`app_settings.dfy`): the user settings store.
  - `Wrappers` (`wrappers.dfy`): `Option`.

How the source's constructs are represented:

- `int` fields are the subset type `Int32`. Every subtraction and sum is unchecked and
  wraps modulo 2^32. `Math.Abs` throws `OverflowException` on `int.MinValue`. A computation
  that may throw returns an `Outcome`.
- Window geometry is `double` in the source. The code only adds, subtracts, halves and
  compares it, so it is modelled as `real`.
- `CustomWindow` derives from `Window` in the source. Here a `CustomWindow` object holds
  the `Window` it extends.
- The static `CustomWindow.IsMaximized` lives in one shared `CustomWindowStatics` object.
- `Settings.Default` is a `SettingsStore` object. Its `values` are the in-memory settings,
  and `persisted` is what the last `Save()` wrote.
- Methods that change state are specified by functions on value snapshots: `Placement`,
  `MinMaxInfo` and `SettingsRecord`. The properties are proved about those functions.

Inputs:

- WPF and Win32 queries are parameters. These are the `MonitorInfo` that
  `MonitorFromWindow`/`GetMonitorInfo` report (or `None` when no monitor handle comes back),
  mouse positions, the `SystemParameters` screen sizes, and whether there is a single monitor.

## Model

| member | source | states |
|---|---|---|
| CSharpInt.Abs | UserSetting.Controls/CustomUI/MaximizeWindowBase.cs:186 | `Math.Abs` throws OverflowException exactly for int.MinValue; otherwise the result is non-negative and equals x or -x |
| CSharpInt.AddWrapsExactSum | UserSetting.Controls/CustomUI/MaximizeWindowBase.cs:260 | adding four ints with wrap-around after each step gives the exact sum reduced modulo 2^32 |
| CSharpInt.WrapNegate | UserSetting.Controls/CustomUI/MaximizeWindowBase.cs:186 | unchecked negation negates the wrapped value, except that int.MinValue negates to itself |
| CSharpInt.ToDecimal | UserSetting.Controls/CustomUI/MaximizeWindowBase.cs:243 | `int.ToString()` is digits with an optional leading '-', and the '-' appears exactly for negative numbers |
| CSharpInt.ParseDecimalInverts | UserSetting.Controls/CustomUI/MaximizeWindowBase.cs:243 | the decimal text of an int can be read back to the same int |
| MaximizeWindowBase.Width | UserSetting.Controls/CustomUI/MaximizeWindowBase.cs:184-187 | Width is never negative; it throws exactly when the unchecked `right - left` is int.MinValue; without overflow it is abs(right - left) |
| MaximizeWindowBase.WidthIgnoresDirection | UserSetting.Controls/CustomUI/MaximizeWindowBase.cs:184-187 | swapping left and right leaves Width unchanged, including the overflow case (the BiDi case the Abs is for) |
| MaximizeWindowBase.Height | UserSetting.Controls/CustomUI/MaximizeWindowBase.cs:192-195 | without overflow, Height is bottom - top, and it is negative exactly when bottom < top |
| MaximizeWindowBase.HeightIsSigned | UserSetting.Controls/CustomUI/MaximizeWindowBase.cs:192-195 | for every rectangle whose differences do not overflow: one stored bottom-up has negative Height, and swapping top and bottom negates Height (unlike Width, which ignores the swap) |
| MaximizeWindowBase.IsEmpty | UserSetting.Controls/CustomUI/MaximizeWindowBase.cs:229-235 | RECT.Empty is empty; see NonEmptyHasPositiveExtent and MirroredIsEmptyWithSameWidth for how IsEmpty relates to Width and Height |
| MaximizeWindowBase.NonEmptyHasPositiveExtent | UserSetting.Controls/CustomUI/MaximizeWindowBase.cs:229-235 | a rectangle that is not IsEmpty has positive Width (equal to right - left) and positive Height |
| MaximizeWindowBase.MirroredIsEmptyWithSameWidth | UserSetting.Controls/CustomUI/MaximizeWindowBase.cs:229-235 | mirroring a non-empty rectangle keeps its Width but makes IsEmpty true, which is the BiDi case the TODO notes |
| MaximizeWindowBase.Equal | UserSetting.Controls/CustomUI/MaximizeWindowBase.cs:267-270 | `operator ==` holds exactly when the two rectangles are the same value; see EqualIsIdentity |
| MaximizeWindowBase.NotEqual | UserSetting.Controls/CustomUI/MaximizeWindowBase.cs:275-278 | `operator !=` holds exactly when the two rectangles are different values |
| MaximizeWindowBase.EqualIsIdentity | UserSetting.Controls/CustomUI/MaximizeWindowBase.cs:267-278 | `==` holds exactly for identical field values, so it is reflexive and symmetric; `!=` is exactly its negation |
| MaximizeWindowBase.GetHashCode | UserSetting.Controls/CustomUI/MaximizeWindowBase.cs:258-261 | the hash is the sum of the four fields reduced to 32 bits (int.GetHashCode is the value itself) |
| MaximizeWindowBase.HashAgreesWithEqual | UserSetting.Controls/CustomUI/MaximizeWindowBase.cs:256-261 | rectangles that are `==` hash equally; the hash is not unique, since rotating the fields collides |
| MaximizeWindowBase.Equals | UserSetting.Controls/CustomUI/MaximizeWindowBase.cs:249-253 | as written, Equals never returns true: it is false for everything except a System.Windows.Rect, and for a Rect the unboxing cast throws InvalidCastException |
| MaximizeWindowBase.EqualsDisagreesWithOperator | UserSetting.Controls/CustomUI/MaximizeWindowBase.cs:249-253 | a boxed copy of a rectangle is `==` to it but not `Equals` to it |
| MaximizeWindowBase.EqualsIntended | UserSetting.Controls/CustomUI/MaximizeWindowBase.cs:246-253 | the deep compare the comment describes: true for a boxed RECT exactly when its fields are equal; an equal object hashes alike |
| MaximizeWindowBase.EqualsIntendedAgreesWithOperator | UserSetting.Controls/CustomUI/MaximizeWindowBase.cs:246-270 | the corrected Equals agrees with `==` on boxed rectangles, and is reflexive and symmetric |
| MaximizeWindowBase.ToString | UserSetting.Controls/CustomUI/MaximizeWindowBase.cs:240-244 | ToString is "RECT {Empty}" exactly when the rectangle equals RECT.Empty; see ToStringInjective for the other rectangles |
| MaximizeWindowBase.ToStringInjective | UserSetting.Controls/CustomUI/MaximizeWindowBase.cs:240-244 | different rectangles print differently, so ToString loses no field |
| MaximizeWindowBase.FitToWorkArea | UserSetting.Controls/CustomUI/MaximizeWindowBase.cs:84-96 | with no monitor, MINMAXINFO is returned unchanged. With a monitor, ptMaxPosition is the work area's offset inside the monitor and ptMaxSize is the work area's size, all four taken as absolute values and non-negative. ptReserved and both track sizes are never changed. It throws OverflowException exactly when one of the four differences wraps to int.MinValue |
| MaximizeWindowBase.WmGetMinMaxInfo | UserSetting.Controls/CustomUI/MaximizeWindowBase.cs:76-97 | the structure behind lParam becomes FitToWorkArea of its old value; on an exception it is left as it was |
| MaximizeWindowBase.WindowProc | UserSetting.Controls/CustomUI/MaximizeWindowBase.cs:53-69 | only message 0x0024 is answered and marked handled; every other message leaves `handled` and the structure untouched; the return value is zero |
| TitleBar.RestoredLeft | UserSetting.Controls/CustomUI/CustomWindow.cs:263-268 | the restored Left keeps the right edge on the virtual screen. It is the mouse-centred position, or pushed left to the screen edge, and exactly the centred one when that fits |
| TitleBar.RestoredTop | UserSetting.Controls/CustomUI/CustomWindow.cs:272-274 | away from the top edge the mouse keeps its height inside the window (Top plus the mouse's Y in the window is its screen Y); within 5 units of the top edge the window goes to -5 |
| TitleBar.Restored | UserSetting.Controls/CustomUI/CustomWindow.cs:252-278 | when the guard fails (right or middle button pressed, left button not pressed, not maximized, or NoResize) the placement is unchanged; otherwise the state is Normal, the size is kept and the right edge is on screen |
| TitleBar.RestoredIsIdempotent | UserSetting.Controls/CustomUI/CustomWindow.cs:252-278 | a second restore with the same mouse event changes nothing, because the window is no longer maximized |
| TitleBar.ToggledAgrees | UserSetting.Controls/CustomUI/CustomWindow.cs:290-307 | Maximize's toggle yields Maximized exactly from Normal; toggling twice returns Normal and Maximized to themselves and sends Minimized to Maximized |
| TitleBar.CustomWindowStatics.constructor | UserSetting.Controls/CustomUI/CustomWindow.cs:112 | IsMaximized starts false |
| TitleBar.CustomWindow.constructor | UserSetting.Controls/CustomUI/CustomWindow.cs:58 | the glyph starts as "1" and no handler pair is subscribed |
| TitleBar.CustomWindow.Maximize | UserSetting.Controls/CustomUI/CustomWindow.cs:290-307 | from Normal: Maximized, IsMaximized true and glyph "2". From any other state: Normal, IsMaximized false and glyph "1". Afterwards IsMaximized matches the state and the glyph matches IsMaximized (GlyphAgrees) |
| TitleBar.CustomWindow.MinimizeEventHandler | UserSetting.Controls/CustomUI/CustomWindow.cs:139-143 | the state becomes Minimized; the glyph and IsMaximized are not touched (the frame names only the state) |
| TitleBar.CustomWindow.TitleBarMouseDown | UserSetting.Controls/CustomUI/CustomWindow.cs:185-240 | a double click toggles as Maximize does, and any other click leaves state and IsMaximized alone. A new flag is subscribed, armed exactly for a non-double-click with the left button on a maximized window. The glyph becomes "2" exactly when the window is Maximized or IsMaximized. When IsMaximized and the glyph agreed with the state before, they still agree afterwards |
| TitleBar.CustomWindow.TitleBarMouseLeftButtonUp | UserSetting.Controls/CustomUI/CustomWindow.cs:214-219 | every subscribed flag is disarmed and none is added or removed |
| TitleBar.CustomWindow.MoveAndRestoreWindow | UserSetting.Controls/CustomUI/CustomWindow.cs:250-281 | the placement becomes Restored of the old one. Without the guard nothing changes. With it the state is Normal, the right edge is on the virtual screen, and Top is -5 near the top edge, otherwise the mouse's screen Y minus its Y in the window |
| TitleBar.CustomWindow.RestoreIfMoved | UserSetting.Controls/CustomUI/CustomWindow.cs:221-236 | an armed flag is consumed, then the window is restored and the glyph set to "1"; an unarmed one changes nothing |
| TitleBar.CustomWindow.TitleBarMouseMove | UserSetting.Controls/CustomUI/CustomWindow.cs:221-236 | all subscribed handlers run in order. Afterwards every flag is disarmed, so a restore fires at most once per arming. If any flag was armed the window is restored once with glyph "1"; if none was, nothing changes |
| TitleBar.CustomWindow.RestoreIfMovedIntended | UserSetting.Controls/CustomUI/CustomWindow.cs:221-236 | the corrected handler, for every event: an armed flag is consumed and the window restored as in RestoreIfMoved. IsMaximized then matches the state the window is in (still Maximized when the guard fails) and the glyph matches IsMaximized; an unarmed flag changes nothing. Afterwards IsMaximized and the glyph agree with the state whenever the flag was armed or they agreed before |
| TitleBar.MaximizeTwiceFromNormal | UserSetting.Controls/CustomUI/CustomWindow.cs:290-307 | for every window that is Normal, two Maximize calls return it to Normal with IsMaximized false and glyph "1", at the position and size it had |
| TitleBar.ArmedMoveWithRightButtonShowsMaximizeGlyph | UserSetting.Controls/CustomUI/CustomWindow.cs:221-236 | maximize, press on the title bar, move with the right button held: the window stays Maximized (MoveAndRestoreWindow returns at its guard) with IsMaximized true, but the glyph reads "1" (maximize) |
| TitleBar.ArmedMoveWithRightButtonIntendedKeepsRestoreGlyph | UserSetting.Controls/CustomUI/CustomWindow.cs:221-236 | the same gesture with the corrected handler: the window stays Maximized and the glyph reads "2" |
| TitleBar.DragRestoreThenClickShowsRestoreGlyph | UserSetting.Controls/CustomUI/CustomWindow.cs:185-240 | maximize, drag-restore, release, click once: the window is Normal but IsMaximized is still true, so the glyph reads "2" (restore) |
| TitleBar.DragRestoreIntendedThenClickShowsMaximizeGlyph | UserSetting.Controls/CustomUI/CustomWindow.cs:221-238 | the same gesture with the corrected handler: the window is Normal, IsMaximized false and the glyph "1" |
| AppSettings.SettingsStore.Save | UserSetting.WPF/CustomUI/UserPreference.cs:67 | `Settings.Default.Save()` persists exactly the current values |
| UserPreferences.SavedValues | UserSetting.WPF/CustomUI/UserPreference.cs:54-68 | for a minimized window the settings stay unchanged. Otherwise they hold the restore bounds' top, left, height and width, the state, IsMaximized = (state == Maximized) and glyph "2" exactly when maximized. The theme is kept |
| UserPreferences.UserPreference.Save | UserSetting.WPF/CustomUI/UserPreference.cs:54-68 | the settings become SavedValues. For a minimized window nothing is persisted and IsMaximized is untouched. Otherwise the settings are persisted and the static IsMaximized is set to match the stored IsMaximized |
| UserPreferences.Loaded | UserSetting.WPF/CustomUI/UserPreference.cs:38-42 | the placement Load reads has a usable size exactly when the saved width and height are positive, and the saved state; see SaveLoadApplyRoundTrip for Save followed by Load |
| UserPreferences.UserPreference.constructor | UserSetting.WPF/CustomUI/UserPreference.cs:24-44 | `Load`: the stored placement is the one the settings hold, and the static IsMaximized takes the saved value |
| UserPreferences.Centered | UserSetting.WPF/CustomUI/UserPreference.cs:158-165 | the window's centre lands on the screen's centre; size and state are unchanged |
| UserPreferences.UserPreference.CenterWindow | UserSetting.WPF/CustomUI/UserPreference.cs:158-165 | the window's placement becomes Centered on the primary screen; only Top and Left may change |
| UserPreferences.AppliedPlacement | UserSetting.WPF/CustomUI/UserPreference.cs:79-90 | a stored placement with positive width and height is applied as stored; otherwise the window is centred and keeps its state and size |
| UserPreferences.ClampAxis | UserSetting.WPF/CustomUI/UserPreference.cs:141-148 | one axis of MoveIntoView: the result is never negative. The far edge is on screen when the window fits, the result is 0 when it does not, and a position already on screen is kept |
| UserPreferences.MovedIntoView | UserSetting.WPF/CustomUI/UserPreference.cs:136-149 | Top and Left end non-negative, and the far edges are on screen when the size fits. Height, width and state never change, and a window that already fits is unchanged |
| UserPreferences.MovedIntoViewIsIdempotent | UserSetting.WPF/CustomUI/UserPreference.cs:136-149 | moving into view twice is moving into view once |
| UserPreferences.UserPreference.MoveIntoView | UserSetting.WPF/CustomUI/UserPreference.cs:136-149 | the four corrections, in source order, give MovedIntoView of the old placement on the virtual screen, with the bounds above |
| UserPreferences.UserPreference.Apply | UserSetting.WPF/CustomUI/UserPreference.cs:77-108 | the placement becomes the applied-or-centred one, moved into view only when there is a single monitor. With a usable size and several monitors it is exactly the stored placement. Without a usable size, state and size are kept |
| UserPreferences.SaveLoadApplyRoundTrip | UserSetting.WPF/CustomUI/UserPreference.cs:36-90 | saving a non-minimized window with positive size, loading and applying restores its top, left, height, width and state |
| UserPreferences.SaveLoadApplyInViewRoundTrip | UserSetting.WPF/CustomUI/UserPreference.cs:77-149 | the round trip also survives the single-monitor move into view when the saved window lies on the screen |
| UserPreferences.CloseAndReopen | UserSetting.WPF/CustomUI/StanWindow.cs:79-97 | closing a non-minimized window (Save) and loading a new one (Load, Apply) on several monitors gives the old window's restore bounds and state, with IsMaximized matching |
| ViewModels.ThemeUri | UserSetting.WPF/ViewModels/MainViewModel.cs:72 | the theme URI is BaseUri, then "/", then the colour name, then "Theme.xaml" (length, prefix and suffix) |
| ViewModels.ThemeNameInverts | UserSetting.WPF/ViewModels/MainViewModel.cs:72 | the colour name can be read back from the URI built from it |
| ViewModels.ThemeUriInverts | UserSetting.WPF/ViewModels/MainViewModel.cs:72 | every URI of the theme shape is the one built from the name read back from it |
| ViewModels.ThemeUriInjective | UserSetting.WPF/ViewModels/MainViewModel.cs:72 | different colour names give different theme URIs |
| ViewModels.CatalogueUrisFollowRule | UserSetting.WPF/ViewModels/MainViewModel.cs:53-57 | each of the five literal URIs is the URI the rule builds from its header |
| ViewModels.Catalogue | UserSetting.WPF/ViewModels/MainViewModel.cs:49-59 | five themes: Blue, LightDark, Dark, Green, Purple in that order. Each URI is ThemeUri of its header, each colour is a 7-character "#RRGGBB" hex string, and the headers are pairwise distinct |
| ViewModels.SelectingByHeaderTargetsOneEntry | UserSetting.WPF/ViewModels/MainViewModel.cs:53-72 | SetUiTheme's URI for a name equals entry i's URI exactly when the name is entry i's header, and never equals another entry's URI |
| ViewModels.StartupThemeUri | UserSetting.WPF/App.xaml.cs:87-98 | start-up builds, from the saved theme name, the same URI SetUiTheme builds |
| ViewModels.ThemeResources.constructor | UserSetting.WPF/CustomUI/AppTheme.cs:7-12 | no theme dictionary is merged yet; the set of URIs that locate a dictionary is given |
| ViewModels.ThemeResources.ChangeTheme | UserSetting.WPF/CustomUI/AppTheme.cs:7-12 | when a dictionary exists at the URI, the application's resources become that dictionary; otherwise loading it throws IOException and the resources are left as they were |
| ViewModels.MainViewModel.constructor | UserSetting.WPF/ViewModels/MainViewModel.cs:34-40 | the menu holds the catalogue |
| ViewModels.MainViewModel.GetUiThemes | UserSetting.WPF/ViewModels/MainViewModel.cs:49-59 | the menu becomes the catalogue |
| ViewModels.MainViewModel.SetUiTheme | UserSetting.WPF/ViewModels/MainViewModel.cs:70-81 | when a dictionary exists at ThemeUri(name), that theme is loaded, the Theme setting becomes the name and nothing else in the settings changes. The settings are persisted, and the start-up URI rebuilt from them is the URI just loaded. Otherwise the load throws IOException, and the resources, the settings and what was persisted are unchanged |

## Findings

| source | as written | input that shows it | evidently intended | confidence | as-written member | corrected member |
|---|---|---|---|---|---|---|
| UserSetting.Controls/CustomUI/MaximizeWindowBase.cs:249-253 | `Equals` checks for a System.Windows.Rect and then unboxes with `(RECT)obj`. The unboxing cast of a boxed Rect to RECT throws InvalidCastException, so Equals never returns true | `a.Equals((object)a)` for any RECT `a`: false, although `a == a` | a deep compare with another RECT, agreeing with `==` | not executed | MaximizeWindowBase.EqualsDisagreesWithOperator | MaximizeWindowBase.EqualsIntendedAgreesWithOperator |
| UserSetting.Controls/CustomUI/CustomWindow.cs:221-238 | the drag-restore handler sets the glyph to "1" but leaves the static IsMaximized true, and the next title-bar click recomputes the glyph as `Maximized \|\| IsMaximized` | maximize, drag the title bar (window restored, glyph "1"), release, click once: the glyph becomes "2" on a Normal window | the restore handler clears IsMaximized too, so a normal window shows the maximize glyph "1" | not executed | TitleBar.DragRestoreThenClickShowsRestoreGlyph | TitleBar.DragRestoreIntendedThenClickShowsMaximizeGlyph |
| UserSetting.Controls/CustomUI/CustomWindow.cs:221-236 | the MouseMove handler sets the glyph to "1" whenever its flag was armed, even when MoveAndRestoreWindow returns at its guard and the window stays Maximized | maximize, press on the title bar, move the mouse with the right button held: the window is Maximized but the glyph reads "1" | the glyph follows the state the window is in after the restore attempt | not executed | TitleBar.ArmedMoveWithRightButtonShowsMaximizeGlyph | TitleBar.CustomWindow.RestoreIfMovedIntended |

## Left out

- Win32 interop is left out as foreign calls. This covers the
  `MonitorFromWindow`/`GetMonitorInfo` P/Invoke, its constant `MONITOR_DEFAULT_TONE_REST` (0x2),
  `Marshal.PtrToStructure`/`StructureToPtr` and the `HwndSource.AddHook` installation.
  The monitor data is an input. The `cbSize` and `dwFlags` fields of MONITORINFO are not
  modelled because nothing reads them.
- `PointToScreen`, `Mouse.GetPosition` and `SystemParameters` are framework calls. Mouse
  positions and screen sizes are inputs.
- TitleBar.CustomWindow.TitleBarMouseDown: DragMove is modelled as a no-op. The system move
  loop it starts then moves the window with the mouse, so the Top and Left in this
  contract are the values when the drag starts.
- TitleBar.CustomWindow.MoveAndRestoreWindow: DragMove is modelled as a no-op, as in
  TitleBarMouseDown. The Top, Left and right-edge facts describe the window when the drag starts.
- WPF's own updates of `RestoreBounds` are not modelled. `RestoreBounds` is a field the
  framework maintains.
- `MaximumEventHandler` only calls `Maximize`, so `Maximize` stands for it.
- `CloseEventHandler` (`Application.Current.Shutdown`) is left out because it is
  application lifetime.
- The `OnApplyTemplate` event wiring and the `INotifyPropertyChanged` notifications are
  left out because they are UI plumbing. The `MaximumButtonText` setter stores the value
  and raises the notification.
- The `AuthorCredits` dependency property and CoreAssemblyInfo (assembly reflection) are
  left out.
- `AreAlmostEqual` and the `#if` single-monitor test are left out because they are
  floating-point. The "single monitor" outcome is a boolean input of `Apply`.
- `Settings.Default.Save()` writing to disk is modelled as copying the values into
  `persisted`. File I/O is left out.
- ViewModels.ThemeResources.ChangeTheme: the resource-dictionary internals are left out.
  Which URIs locate a theme dictionary is an input set. A successful load is modelled as
  recording the URI, and a failed one throws IOException before the resources are cleared.
- ViewModels.MainViewModel.SetUiTheme: the IOException of a failed load is returned, not
  raised. In the application it propagates out of `ThemeChangeCommand`, which is not
  modelled.
- `new Uri(...)` parsing is not modelled, so the model cannot tell that a malformed URI
  would throw. The URI is the string it is built from.
- App.xaml.cs is reduced to the start-up theme URI. The dependency-injection host,
  `Task.Run` with the async start-up and async `OnExit`, and the exception tracing are left
  out as concurrency and bootstrapping.
- StanWindow.cs is reduced to `CloseAndReopen`. Its Loaded handler also copies
  `MaximumButtonText` from the settings, which is not modelled.
- MainWindow.xaml.cs, ContextMenuClickBehavior.cs, BindingProxy.cs, ActionCommand.cs,
  ViewModelBase.cs and de-DE.xaml.cs are left out because they are framework-only plumbing.
- `ThemeChangeCommand` passes `p.ToString()` to `SetUiTheme`. In the model `SetUiTheme`
  takes the nullable name directly; a null name builds the URI with an empty name, as
  C# interpolation does.
- Window coordinates are `real`. Floating-point NaN, infinities and rounding are not
  modelled.
- `int.ToString()` is modelled with '-' as the negative sign. A culture with a different
  negative sign is not modelled.
