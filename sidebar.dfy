/** The sidebar provider (lib/sidebar-context.tsx): whether the sidebar is open and whether the
    window counts as mobile, kept up to date by a resize listener. The window width is an
    input. */
module Sidebar {
  /** Widths below this are mobile. */
  const MobileBreakpoint: int := 1024

  /** What `handleResize` sets for a window `width` wide: (isMobile, isOpen). */
  function ResizeState(width: int): (s: (bool, bool))
    ensures s.0 <==> width < MobileBreakpoint
    ensures s.1 <==> !s.0
  {
    var mobile := width < MobileBreakpoint;
    (mobile, !mobile)
  }

  /** A resize opens the sidebar exactly on desktop widths, and the wider of two desktop
      widths, or the narrower of two mobile widths, gives the same state. */
  lemma ResizeStateMonotone(a: int, b: int)
    requires a <= b
    ensures ResizeState(a).1 ==> ResizeState(b).1
    ensures b < MobileBreakpoint || MobileBreakpoint <= a ==> ResizeState(a) == ResizeState(b)
  {
  }

  class SidebarProvider {
    var isOpen: bool
    var isMobile: bool
    var listening: bool     // whether `handleResize` is registered for "resize"

    constructor()
      ensures isOpen && !isMobile && !listening
    {
      isOpen, isMobile, listening := true, false, false;
    }

    /** The mount effect: `handleResize` runs once and is registered for resizes. */
    method Mount(width: int)
      modifies this
      ensures (isMobile, isOpen) == ResizeState(width)
      ensures listening
    {
      isMobile, isOpen := ResizeState(width).0, ResizeState(width).1;
      listening := true;
    }

    /** A "resize" event: while registered, the state follows the new width alone, whatever
        `setIsOpen` did before. */
    method Resize(width: int)
      modifies this
      ensures old(listening) ==> (isMobile, isOpen) == ResizeState(width)
      ensures !old(listening) ==> isMobile == old(isMobile) && isOpen == old(isOpen)
      ensures listening == old(listening)
    {
      if listening {
        isMobile, isOpen := ResizeState(width).0, ResizeState(width).1;
      }
    }

    /** The effect cleanup on unmount removes the listener. */
    method Unmount()
      modifies this
      ensures !listening
      ensures isOpen == old(isOpen) && isMobile == old(isMobile)
    {
      listening := false;
    }

    /** `setIsOpen` from the context: `isMobile` waits for the next resize. */
    method SetIsOpen(open: bool)
      modifies this
      ensures isOpen == open
      ensures isMobile == old(isMobile) && listening == old(listening)
    {
      isOpen := open;
    }
  }
}
