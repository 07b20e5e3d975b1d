/** The viewport hook: a `{width, height}` state cell, overwritten on mount
    and on every window resize, and the layout flags derived from it. The
    window listener itself is not modelled; its readings arrive as arguments
    to Update. */
module ViewportHook {

  /** Widths from here up are desktop. */
  const DesktopMinWidth: int := 1024
  /** Widths from here up to the desktop breakpoint are tablet. */
  const TabletMinWidth: int := 768
  /** Heights from here up leave room for the full desktop layout. */
  const EnoughHeight: int := 800

  /** What `useViewport` returns. */
  datatype ViewportInfo = ViewportInfo(
    width: int,
    height: int,
    isDesktop: bool,
    isTablet: bool,
    isMobile: bool,
    hasEnoughHeight: bool,
    shouldShowScrollbar: bool
  )

  /** The derived flags for one stored viewport. */
  function Classify(width: int, height: int): (v: ViewportInfo)
    ensures v.width == width && v.height == height
    // exactly one of the three layouts
    ensures (v.isDesktop || v.isTablet || v.isMobile)
    ensures !(v.isDesktop && v.isTablet) && !(v.isDesktop && v.isMobile) && !(v.isTablet && v.isMobile)
    ensures v.isDesktop <==> width >= DesktopMinWidth
    ensures v.isMobile <==> width < TabletMinWidth
    ensures v.hasEnoughHeight <==> height >= EnoughHeight
    // the page scrolls unless a desktop-wide window is also tall enough
    ensures !v.shouldShowScrollbar <==> width >= DesktopMinWidth && height >= EnoughHeight
  {
    var isDesktop := width >= DesktopMinWidth;
    var isTablet := width >= TabletMinWidth && width < DesktopMinWidth;
    var isMobile := width < TabletMinWidth;
    var hasEnoughHeight := height >= EnoughHeight;
    ViewportInfo(width, height, isDesktop, isTablet, isMobile, hasEnoughHeight,
                 !isDesktop || !hasEnoughHeight)
  }

  /** The three layouts in width order: a wider window is never a narrower
      layout. */
  lemma LayoutMonotone(w1: int, w2: int, h1: int, h2: int)
    requires w1 <= w2
    ensures Classify(w1, h1).isDesktop ==> Classify(w2, h2).isDesktop
    ensures Classify(w2, h2).isMobile ==> Classify(w1, h1).isMobile
  {
  }

  /** Before the first measurement the hook reports a 0 x 0 mobile viewport
      that scrolls. */
  lemma InitialIsMobile()
    ensures var v := Classify(0, 0);
      v.isMobile && !v.isTablet && !v.isDesktop && !v.hasEnoughHeight && v.shouldShowScrollbar
  {
  }

  /** The state cell. */
  class Viewport {
    var width: int
    var height: int

    /** `useState({ width: 0, height: 0 })`. */
    constructor ()
      ensures width == 0 && height == 0
    {
      width, height := 0, 0;
    }

    /** `updateViewport`: store the window's inner size. */
    method Update(innerWidth: int, innerHeight: int)
      modifies this
      ensures width == innerWidth && height == innerHeight
    {
      width, height := innerWidth, innerHeight;
    }

    /** The hook's return value for the stored size. */
    function Info(): (v: ViewportInfo)
      reads this
      ensures v == Classify(width, height)
      ensures v.width == width && v.height == height
      ensures (v.isDesktop || v.isTablet || v.isMobile)
      ensures !(v.isDesktop && v.isTablet) && !(v.isDesktop && v.isMobile) && !(v.isTablet && v.isMobile)
      ensures v.isDesktop <==> width >= DesktopMinWidth
      ensures v.isMobile <==> width < TabletMinWidth
      ensures v.hasEnoughHeight <==> height >= EnoughHeight
      ensures !v.shouldShowScrollbar <==> v.isDesktop && v.hasEnoughHeight
    {
      Classify(width, height)
    }
  }
}
