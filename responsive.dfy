/**
 * Responsive layout helpers: the breakpoint of a viewport width, the
 * per-breakpoint predicates, the device preset a width is shown as, and
 * the choice of a value per breakpoint with fallback to smaller ones.
 * Widths are CSS pixels and may be fractional.
 */
module Responsive {
  import opened Common

  /** `BREAKPOINTS`: the widest mobile and tablet widths, and the narrowest desktop one. */
  const MobileMax: real := 767.0
  const TabletMax: real := 1023.0
  const DesktopMin: real := 1024.0

  datatype Breakpoint = Mobile | Tablet | Desktop

  /** `getBreakpoint`. */
  function GetBreakpoint(width: real): (b: Breakpoint)
    ensures b == Mobile <==> width <= MobileMax
    ensures b == Tablet <==> MobileMax < width <= TabletMax
    ensures b == Desktop <==> TabletMax < width
  {
    if width <= MobileMax then Mobile
    else if width <= TabletMax then Tablet
    else Desktop
  }

  predicate IsMobile(width: real) { width <= MobileMax }

  predicate IsTablet(width: real) { width > MobileMax && width <= TabletMax }

  predicate IsDesktop(width: real) { width >= DesktopMin }

  /** A whole number of pixels. */
  predicate Integral(width: real) { width == width.Floor as real }

  /**
   * For a whole-pixel width exactly one of the three predicates holds, and
   * it is the one named by the breakpoint.
   */
  lemma ExactlyOneBreakpoint(width: real)
    requires Integral(width)
    ensures IsMobile(width) <==> GetBreakpoint(width) == Mobile
    ensures IsTablet(width) <==> GetBreakpoint(width) == Tablet
    ensures IsDesktop(width) <==> GetBreakpoint(width) == Desktop
    ensures IsMobile(width) || IsTablet(width) || IsDesktop(width)
    ensures !(IsMobile(width) && IsTablet(width)) && !(IsMobile(width) && IsDesktop(width)) && !(IsTablet(width) && IsDesktop(width))
  {
    var w := width.Floor;
    assert width == w as real;
    if TabletMax < width {
      assert 1023 < w;
      assert 1024 <= w;
    }
  }

  /**
   * Between the tablet and desktop limits a fractional width is a desktop
   * breakpoint that neither `isTablet` nor `isDesktop` accepts.
   */
  lemma FractionalWidthInTheGap()
    ensures GetBreakpoint(1023.5) == Desktop && !IsTablet(1023.5) && !IsDesktop(1023.5) && !IsMobile(1023.5)
  {
  }

  /** `DeviceKey`: the device presets a viewport can be shown as. */
  datatype DeviceKey = DesktopDevice | TabletDevice | Realme10 | IPhone14 | IPhone14Pro

  /** `DEVICES`: each preset's name and frame size, when it has one. */
  datatype Device = Device(name: string, width: Option<nat>, height: Option<nat>)

  function DeviceInfo(key: DeviceKey): Device
  {
    match key
    case DesktopDevice => Device("Desktop", None, None)
    case TabletDevice => Device("Tablet", Some(768), Some(1024))
    case Realme10 => Device("Realme 10", Some(390), Some(844))
    case IPhone14 => Device("iPhone 14", Some(393), Some(852))
    case IPhone14Pro => Device("iPhone 14 Pro", Some(393), Some(852))
  }

  /**
   * `getDeviceFromWidth`: a phone exactly on the mobile breakpoint, and the
   * tablet and desktop presets exactly on theirs.
   */
  function GetDeviceFromWidth(width: real): (d: DeviceKey)
    ensures d in {Realme10, IPhone14} <==> GetBreakpoint(width) == Mobile
    ensures d == TabletDevice <==> GetBreakpoint(width) == Tablet
    ensures d == DesktopDevice <==> GetBreakpoint(width) == Desktop
  {
    if width <= 390.0 then Realme10
    else if width <= 393.0 then IPhone14
    else if width <= MobileMax then Realme10
    else if width <= TabletMax then TabletDevice
    else DesktopDevice
  }

  /**
   * The device for a width, by range: Realme 10 up to 390 px, iPhone 14 up
   * to 393, Realme 10 again up to the mobile limit, then tablet and desktop.
   */
  lemma DeviceRanges(width: real)
    ensures width <= 390.0 ==> GetDeviceFromWidth(width) == Realme10
    ensures 390.0 < width <= 393.0 ==> GetDeviceFromWidth(width) == IPhone14
    ensures 393.0 < width <= MobileMax ==> GetDeviceFromWidth(width) == Realme10
    ensures MobileMax < width <= TabletMax ==> GetDeviceFromWidth(width) == TabletDevice
    ensures TabletMax < width ==> GetDeviceFromWidth(width) == DesktopDevice
    ensures GetDeviceFromWidth(width) != IPhone14Pro
  {
  }

  /** `GRID_COLUMNS`. */
  function GridColumns(b: Breakpoint): nat
  {
    match b
    case Mobile => 2
    case Tablet => 3
    case Desktop => 4
  }

  /** Wider breakpoints never show fewer grid columns. */
  lemma GridColumnsGrowWithWidth(w1: real, w2: real)
    requires w1 <= w2
    ensures GridColumns(GetBreakpoint(w1)) <= GridColumns(GetBreakpoint(w2))
  {
  }

  /** The per-breakpoint values: mobile is required, the others optional. */
  datatype ResponsiveValues<T> = ResponsiveValues(mobile: T, tablet: Option<T>, desktop: Option<T>)

  /** `a ?? b`. */
  function OrElse<T>(a: Option<T>, b: T): T
  {
    if a.Some? then a.value else b
  }

  /** `responsive`: the value for the breakpoint, falling back to the next smaller one that is given. */
  function ResponsiveValue<T>(b: Breakpoint, values: ResponsiveValues<T>): (v: T)
    ensures b == Mobile ==> v == values.mobile
    ensures b == Tablet ==> v == (if values.tablet.Some? then values.tablet.value else values.mobile)
    ensures b == Desktop ==> v == (if values.desktop.Some? then values.desktop.value
                                   else if values.tablet.Some? then values.tablet.value
                                   else values.mobile)
  {
    match b
    case Mobile => values.mobile
    case Tablet => OrElse(values.tablet, values.mobile)
    case Desktop => OrElse(values.desktop, OrElse(values.tablet, values.mobile))
  }

  /** The value chosen is always one of the values given, and with only a mobile value it is that one. */
  lemma ResponsiveValueIsGiven<T>(b: Breakpoint, values: ResponsiveValues<T>)
    ensures var v := ResponsiveValue(b, values);
            v == values.mobile || Some(v) == values.tablet || Some(v) == values.desktop
    ensures values.tablet.None? && values.desktop.None? ==> ResponsiveValue(b, values) == values.mobile
  {
  }
}
