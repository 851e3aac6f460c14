/**
 * The sidebar's click-outside rule: on a narrow window, a mouse press outside
 * the open sidebar closes it.
 */
module Sidebar {
  import opened SidebarContext

  /**
   * Whether a mouse press toggles the sidebar: the listener exists only while
   * the sidebar is open, it ignores presses on a desktop-wide window, and it
   * reacts only to presses outside the sidebar element.
   */
  predicate ClickToggles(isOpen: bool, width: int, insideSidebar: bool) {
    isOpen && width < DesktopWidth && !insideSidebar
  }

  /**
   * The `isOpen` after a press, for a provider-backed context. A press never
   * opens the sidebar, never changes it when it is closed, on a wide window or
   * inside it, and closes it otherwise.
   */
  function OpenAfterClick(isOpen: bool, width: int, insideSidebar: bool): (next: bool)
    ensures next ==> isOpen
    ensures !isOpen ==> !next
    ensures width >= DesktopWidth ==> next == isOpen
    ensures insideSidebar ==> next == isOpen
    ensures isOpen && width < DesktopWidth && !insideSidebar ==> !next
  {
    if ClickToggles(isOpen, width, insideSidebar) then !isOpen else isOpen
  }

  /** The dimming overlay is rendered exactly while the sidebar is open. */
  predicate OverlayShown(isOpen: bool) {
    isOpen
  }

  /**
   * A `mousedown` anywhere in the document, with the window width at that
   * moment and whether the target lies inside the sidebar element.
   */
  method HandleMouseDown(ctx: Context, width: int, insideSidebar: bool)
    modifies ctx.Frame()
    ensures ctx.Provided? ==> ctx.IsOpen() == OpenAfterClick(old(ctx.IsOpen()), width, insideSidebar)
    ensures ctx.Default? ==> ctx.IsOpen()
  {
    if ClickToggles(ctx.IsOpen(), width, insideSidebar) {
      ctx.Toggle();
    }
  }
}
