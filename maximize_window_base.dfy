/**
 * The window base class that answers WM_GETMINMAXINFO so that a maximized borderless
 * window covers the work area of its monitor (not the whole monitor), and the RECT
 * value type it reads the monitor geometry into.
 *
 * The Win32 calls (MonitorFromWindow, GetMonitorInfo) are replaced by an input: `None`
 * when no monitor handle was returned, otherwise the MonitorInfo the call left behind.
 */
module MaximizeWindowBase {
  import opened CSharpInt
  import opened Wrappers

  /** The only window message the hook answers. */
  const WM_GETMINMAXINFO: int := 0x0024

  datatype Point = Point(x: Int32, y: Int32)

  datatype MinMaxInfo = MinMaxInfo(
    ptReserved: Point,
    ptMaxSize: Point,
    ptMaxPosition: Point,
    ptMinTrackSize: Point,
    ptMaxTrackSize: Point)

  datatype RECT = RECT(left: Int32, top: Int32, right: Int32, bottom: Int32)

  /** What GetMonitorInfo reports: the whole monitor and the part not covered by task bars. */
  datatype MonitorInfo = MonitorInfo(rcMonitor: RECT, rcWork: RECT)

  /** `RECT.Empty`, the default struct value. */
  function EmptyRect(): RECT {
    RECT(0, 0, 0, 0)
  }

  // ---------------------------------------------------------------- RECT members

  /** `Width`: the absolute horizontal extent, so that a right-to-left rectangle is not negative. */
  function Width(r: RECT): (w: Outcome<Int32>)
    ensures w.Ok? ==> w.value >= 0
    ensures w.Throws? <==> Sub(r.right, r.left) == MinValue
    ensures MinValue < r.right - r.left <= MaxValue ==> w.Ok? && w.value == IntAbs(r.right - r.left)
  {
    Abs(Sub(r.right, r.left))
  }

  /** `Height`: the signed vertical extent; no absolute value is taken. */
  function Height(r: RECT): (h: Int32)
    ensures InRange(r.bottom - r.top) ==> h == r.bottom - r.top
    ensures InRange(r.bottom - r.top) ==> (h < 0 <==> r.bottom < r.top)
  {
    Sub(r.bottom, r.top)
  }

  /** `IsEmpty`: no area when read left-to-right and top-to-bottom. */
  predicate IsEmpty(r: RECT)
    ensures Equal(r, EmptyRect()) ==> IsEmpty(r)
  {
    r.left >= r.right || r.top >= r.bottom
  }

  /** `operator ==`: field-by-field comparison. */
  predicate Equal(a: RECT, b: RECT)
    ensures Equal(a, b) <==> a == b
  {
    a.left == b.left && a.top == b.top && a.right == b.right && a.bottom == b.bottom
  }

  /** `operator !=`. */
  predicate NotEqual(a: RECT, b: RECT)
    ensures NotEqual(a, b) <==> a != b
  {
    !Equal(a, b)
  }

  /** `GetHashCode`: the unchecked sum of the four fields (int.GetHashCode is the value itself). */
  function GetHashCode(r: RECT): (h: Int32)
    ensures h == Wrap(r.left + r.top + r.right + r.bottom)
  {
    AddWrapsExactSum(r.left, r.top, r.right, r.bottom);
    Add(Add(Add(r.left, r.top), r.right), r.bottom)
  }

  /** The text ToString writes for a rectangle other than RECT.Empty. */
  function FieldsText(r: RECT): string {
    "RECT { left : " + ToDecimal(r.left) + " / top : " + ToDecimal(r.top)
      + " / right : " + ToDecimal(r.right) + " / bottom : " + ToDecimal(r.bottom) + " }"
  }

  /** `ToString`: "RECT {Empty}" names exactly RECT.Empty; every other rectangle lists its fields. */
  function ToString(r: RECT): (s: string)
    ensures s == "RECT {Empty}" <==> Equal(r, EmptyRect())
  {
    if Equal(r, EmptyRect()) then "RECT {Empty}"
    else
      var text := FieldsText(r);
      assert text[6] == ' ';
      text
  }

  /** The objects `Equals(object)` can be handed, as far as its type tests can tell them apart. */
  datatype BoxedObject =
    | Null
    | BoxedRECT(rect: RECT)      // a boxed RECT
    | BoxedWindowsRect           // a boxed System.Windows.Rect (the WPF double-precision rectangle)
    | OtherObject

  /**
   * `Equals(object)` as written: anything that is not a System.Windows.Rect is unequal,
   * and for a boxed System.Windows.Rect the unboxing cast `(RECT)obj` fails.
   */
  function Equals(self: RECT, obj: BoxedObject): (r: Outcome<bool>)
    ensures r != Ok(true)
    ensures r.Throws? <==> obj.BoxedWindowsRect?
    ensures r.Throws? ==> r.error == InvalidCastException
  {
    if !obj.BoxedWindowsRect? then Ok(false) else Throws(InvalidCastException)
  }

  /** `Equals(object)` as its comment describes it: a deep compare with another RECT. */
  function EqualsIntended(self: RECT, obj: BoxedObject): (r: bool)
    ensures r ==> obj.BoxedRECT? && GetHashCode(obj.rect) == GetHashCode(self)
    ensures obj.BoxedRECT? ==> (r <==> self == obj.rect)
  {
    match obj
    case BoxedRECT(other) => Equal(self, other)
    case _ => false
  }

  // ---------------------------------------------------------------- properties of RECT

  /** Swapping left and right does not change Width, overflow included. */
  lemma WidthIgnoresDirection(r: RECT)
    ensures Width(RECT(r.right, r.top, r.left, r.bottom)) == Width(r)
  {
    WrapNegate(r.right - r.left);
    assert r.left - r.right == -(r.right - r.left);
  }

  /** A left-to-right rectangle that is not empty has positive width and height. */
  lemma NonEmptyHasPositiveExtent(r: RECT)
    requires !IsEmpty(r)
    requires InRange(r.right - r.left) && InRange(r.bottom - r.top)
    ensures Width(r) == Ok(r.right - r.left) && r.right - r.left > 0
    ensures Height(r) > 0
  {
  }

  /**
   * The right-to-left case: mirroring a non-empty rectangle keeps its Width but makes it
   * empty, so IsEmpty and Width disagree about it.
   */
  lemma MirroredIsEmptyWithSameWidth(r: RECT)
    requires !IsEmpty(r)
    ensures var m := RECT(r.right, r.top, r.left, r.bottom);
      IsEmpty(m) && Width(m) == Width(r)
  {
    WidthIgnoresDirection(r);
  }

  /**
   * Height keeps its sign: a rectangle stored bottom-up has negative Height, and unlike
   * Width, swapping top and bottom negates it.
   */
  lemma HeightIsSigned(r: RECT)
    requires InRange(r.bottom - r.top) && InRange(r.top - r.bottom)
    ensures r.bottom < r.top ==> Height(r) < 0
    ensures Height(RECT(r.left, r.bottom, r.right, r.top)) == -Height(r)
  {
  }

  /** `==` is exactly value identity, hence reflexive and symmetric; `!=` is its negation. */
  lemma EqualIsIdentity(a: RECT, b: RECT)
    ensures Equal(a, b) <==> a == b
    ensures Equal(a, a)
    ensures Equal(a, b) <==> Equal(b, a)
    ensures NotEqual(a, b) <==> !Equal(a, b)
  {
  }

  /** Equal rectangles hash equally; the hash is not unique (a rotated field order collides). */
  lemma HashAgreesWithEqual(a: RECT, b: RECT)
    ensures Equal(a, b) ==> GetHashCode(a) == GetHashCode(b)
    ensures GetHashCode(RECT(a.right, a.bottom, a.left, a.top)) == GetHashCode(a)
  {
    assert a.right + a.bottom + a.left + a.top == a.left + a.top + a.right + a.bottom;
  }

  /** As written, Equals reports a boxed copy of a rectangle as unequal to it, although `==` holds. */
  lemma EqualsDisagreesWithOperator(a: RECT)
    ensures Equal(a, a) && Equals(a, BoxedRECT(a)) == Ok(false)
  {
  }

  /** The intended Equals agrees with `==` on boxed rectangles and is an equivalence. */
  lemma EqualsIntendedAgreesWithOperator(a: RECT, b: RECT)
    ensures EqualsIntended(a, BoxedRECT(b)) <==> Equal(a, b)
    ensures EqualsIntended(a, BoxedRECT(a))
    ensures EqualsIntended(a, BoxedRECT(b)) <==> EqualsIntended(b, BoxedRECT(a))
  {
  }

  /** A decimal number followed by a text starting with a space can be split off uniquely. */
  lemma SplitDecimal(m: int, n: int, s: string, t: string)
    requires ToDecimal(m) + s == ToDecimal(n) + t
    requires |s| > 0 && |t| > 0 && s[0] == ' ' && t[0] == ' '
    ensures m == n && s == t
  {
    var dm, dn := ToDecimal(m), ToDecimal(n);
    assert dm == (dm + s)[..|dm|];
    assert dn == (dn + t)[..|dn|];
    ToDecimalInjective(m, n);
    assert s == (dm + s)[|dm|..];
    assert t == (dn + t)[|dn|..];
  }

  lemma PrefixCancels(p: string, x: string, y: string)
    requires p + x == p + y
    ensures x == y
  {
    assert x == (p + x)[|p|..];
    assert y == (p + y)[|p|..];
  }

  /** FieldsText read from the right: each number followed by the rest of the text. */
  function BottomText(r: RECT): string {
    ToDecimal(r.bottom) + " }"
  }

  function RightText(r: RECT): string {
    ToDecimal(r.right) + (" / bottom : " + BottomText(r))
  }

  function TopText(r: RECT): string {
    ToDecimal(r.top) + (" / right : " + RightText(r))
  }

  function LeftText(r: RECT): string {
    ToDecimal(r.left) + (" / top : " + TopText(r))
  }

  /** Regrouping a left-nested concatenation of nine strings to the right. */
  lemma ConcatNestsRight(a: string, b: string, c: string, d: string, e: string,
                         f: string, g: string, h: string, i: string)
    ensures a + b + c + d + e + f + g + h + i == a + (b + (c + (d + (e + (f + (g + (h + i)))))))
  {
  }

  lemma FieldsTextNests(r: RECT)
    ensures FieldsText(r) == "RECT { left : " + LeftText(r)
  {
    ConcatNestsRight("RECT { left : ", ToDecimal(r.left), " / top : ", ToDecimal(r.top),
      " / right : ", ToDecimal(r.right), " / bottom : ", ToDecimal(r.bottom), " }");
  }

  /** Different rectangles print differently. */
  lemma ToStringInjective(a: RECT, b: RECT)
    requires ToString(a) == ToString(b)
    ensures a == b
  {
    if !Equal(a, EmptyRect()) && !Equal(b, EmptyRect()) {
      FieldsTextNests(a);
      FieldsTextNests(b);
      PrefixCancels("RECT { left : ", LeftText(a), LeftText(b));
      SplitDecimal(a.left, b.left, " / top : " + TopText(a), " / top : " + TopText(b));
      PrefixCancels(" / top : ", TopText(a), TopText(b));
      SplitDecimal(a.top, b.top, " / right : " + RightText(a), " / right : " + RightText(b));
      PrefixCancels(" / right : ", RightText(a), RightText(b));
      SplitDecimal(a.right, b.right, " / bottom : " + BottomText(a), " / bottom : " + BottomText(b));
      PrefixCancels(" / bottom : ", BottomText(a), BottomText(b));
      SplitDecimal(a.bottom, b.bottom, " }", " }");
    }
  }

  // ---------------------------------------------------------------- WM_GETMINMAXINFO

  /** The subtraction would overflow Math.Abs (its unchecked result is int.MinValue). */
  predicate AbsOverflows(a: Int32, b: Int32) {
    Sub(a, b) == MinValue
  }

  /** Some of the four differences WmGetMinMaxInfo takes the absolute value of overflows. */
  predicate FitOverflows(info: MonitorInfo) {
    var work, mon := info.rcWork, info.rcMonitor;
    AbsOverflows(work.left, mon.left) || AbsOverflows(work.top, mon.top)
      || AbsOverflows(work.right, work.left) || AbsOverflows(work.bottom, work.top)
  }

  /** The four differences are representable and none is int.MinValue. */
  predicate FitsInt32(info: MonitorInfo) {
    var work, mon := info.rcWork, info.rcMonitor;
    MinValue < work.left - mon.left <= MaxValue && MinValue < work.top - mon.top <= MaxValue
      && MinValue < work.right - work.left <= MaxValue && MinValue < work.bottom - work.top <= MaxValue
  }

  /**
   * The MINMAXINFO that WmGetMinMaxInfo writes back: with a monitor, the maximized position
   * is the work area's offset inside the monitor and the maximized size is the work area's
   * size; without one, the structure is written back as it was read.
   */
  function FitToWorkArea(mmi: MinMaxInfo, monitor: Option<MonitorInfo>): (r: Outcome<MinMaxInfo>)
    ensures monitor.None? ==> r == Ok(mmi)
    ensures r.Throws? <==> monitor.Some? && FitOverflows(monitor.value)
    ensures r.Throws? ==> r.error == OverflowException
    ensures r.Ok? ==>
      r.value.ptReserved == mmi.ptReserved && r.value.ptMinTrackSize == mmi.ptMinTrackSize
      && r.value.ptMaxTrackSize == mmi.ptMaxTrackSize
    ensures r.Ok? && monitor.Some? ==>
      r.value.ptMaxPosition.x >= 0 && r.value.ptMaxPosition.y >= 0
      && r.value.ptMaxSize.x >= 0 && r.value.ptMaxSize.y >= 0
    ensures monitor.Some? && FitsInt32(monitor.value) ==>
      var work, mon := monitor.value.rcWork, monitor.value.rcMonitor;
      r.Ok? && r.value.ptMaxPosition.x == IntAbs(work.left - mon.left)
      && r.value.ptMaxPosition.y == IntAbs(work.top - mon.top)
      && r.value.ptMaxSize.x == IntAbs(work.right - work.left)
      && r.value.ptMaxSize.y == IntAbs(work.bottom - work.top)
  {
    match monitor
    case None => Ok(mmi)
    case Some(info) =>
      var work, mon := info.rcWork, info.rcMonitor;
      var posX, posY := Abs(Sub(work.left, mon.left)), Abs(Sub(work.top, mon.top));
      var sizeX, sizeY := Abs(Sub(work.right, work.left)), Abs(Sub(work.bottom, work.top));
      if posX.Throws? || posY.Throws? || sizeX.Throws? || sizeY.Throws? then
        Throws(OverflowException)
      else
        Ok(mmi.(ptMaxPosition := Point(posX.value, posY.value),
                ptMaxSize := Point(sizeX.value, sizeY.value)))
  }

  /** The unmanaged MINMAXINFO that a WM_GETMINMAXINFO message's lParam points to. */
  class MinMaxInfoPtr {
    var mmi: MinMaxInfo

    constructor (mmi: MinMaxInfo)
      ensures this.mmi == mmi
    {
      this.mmi := mmi;
    }
  }

  /**
   * `WmGetMinMaxInfo`: copies the structure out, overwrites the maximized position and
   * size field by field, and copies it back. An exception from Math.Abs leaves the
   * unmanaged structure as it was, since the copy-back is not reached.
   */
  method WmGetMinMaxInfo(lParam: MinMaxInfoPtr, monitor: Option<MonitorInfo>)
      returns (thrown: Option<Exception>)
    modifies lParam
    ensures FitToWorkArea(old(lParam.mmi), monitor).Ok? ==>
      thrown == None && lParam.mmi == FitToWorkArea(old(lParam.mmi), monitor).value
    ensures FitToWorkArea(old(lParam.mmi), monitor).Throws? ==>
      thrown == Some(OverflowException) && lParam.mmi == old(lParam.mmi)
  {
    var mmi := lParam.mmi;
    if monitor.Some? {
      var work, mon := monitor.value.rcWork, monitor.value.rcMonitor;
      var v := Abs(Sub(work.left, mon.left));
      if v.Throws? { return Some(v.error); }
      mmi := mmi.(ptMaxPosition := mmi.ptMaxPosition.(x := v.value));
      v := Abs(Sub(work.top, mon.top));
      if v.Throws? { return Some(v.error); }
      mmi := mmi.(ptMaxPosition := mmi.ptMaxPosition.(y := v.value));
      v := Abs(Sub(work.right, work.left));
      if v.Throws? { return Some(v.error); }
      mmi := mmi.(ptMaxSize := mmi.ptMaxSize.(x := v.value));
      v := Abs(Sub(work.bottom, work.top));
      if v.Throws? { return Some(v.error); }
      mmi := mmi.(ptMaxSize := mmi.ptMaxSize.(y := v.value));
    }
    lParam.mmi := mmi;
    thrown := None;
  }

  /**
   * `WindowProc`: the hook answers WM_GETMINMAXINFO and marks it handled; every other
   * message passes through untouched. The return value is always zero. `handled` is
   * the hook's ref parameter: its value on entry and on exit.
   */
  method WindowProc(msg: Int32, lParam: MinMaxInfoPtr, monitor: Option<MonitorInfo>, handled: bool)
      returns (result: int, handledOut: bool, thrown: Option<Exception>)
    modifies lParam
    ensures msg != WM_GETMINMAXINFO ==>
      thrown == None && handledOut == handled && lParam.mmi == old(lParam.mmi)
    ensures msg == WM_GETMINMAXINFO ==> (thrown == None <==> FitToWorkArea(old(lParam.mmi), monitor).Ok?)
    ensures msg == WM_GETMINMAXINFO && thrown == None ==>
      handledOut && lParam.mmi == FitToWorkArea(old(lParam.mmi), monitor).value
    ensures thrown != None ==> handledOut == handled && lParam.mmi == old(lParam.mmi)
    ensures thrown == None ==> result == 0
  {
    result, handledOut, thrown := 0, handled, None;
    if msg == WM_GETMINMAXINFO {
      thrown := WmGetMinMaxInfo(lParam, monitor);
      if thrown != None { return; }
      handledOut := true;
    }
  }
}
