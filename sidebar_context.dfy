/**
 * The sidebar's open/closed flag: owned by `SidebarProvider`, read and
 * flipped by its consumers through `useSidebar()`.
 */
module SidebarContext {

  /** Tailwind's `lg` breakpoint in pixels: at or above it the layout is "desktop". */
  const DesktopWidth := 1024

  /** The provider's state: the single `isOpen` field. */
  class SidebarProvider {
    var isOpen: bool

    /** `useState(true)`: open until the mount effect runs. */
    constructor ()
      ensures isOpen
    {
      isOpen := true;
    }

    /** The mount effect: open on a desktop-wide window, closed otherwise. */
    method Mount(width: int)
      modifies this
      ensures isOpen <==> width >= DesktopWidth
    {
      isOpen := width >= DesktopWidth;
    }

    /** `toggleSidebar`: negates `isOpen`, so two toggles restore it. */
    method ToggleSidebar()
      modifies this
      ensures isOpen == !old(isOpen)
    {
      isOpen := !isOpen;
    }
  }

  /**
   * What `useSidebar()` returns: the nearest provider's state, or, outside any
   * provider, the context's default value `{ isOpen: true, toggleSidebar: () => {} }`.
   */
  datatype Context = Default | Provided(provider: SidebarProvider) {

    function Frame(): set<object> {
      if Provided? then {provider} else {}
    }

    /** The `isOpen` a consumer sees. */
    function IsOpen(): (open: bool)
      reads Frame()
      ensures Default? ==> open
    {
      if Provided? then provider.isOpen else true
    }

    /** The `toggleSidebar` a consumer calls; the default one changes nothing. */
    method Toggle()
      modifies Frame()
      ensures Provided? ==> IsOpen() == !old(IsOpen())
      ensures Default? ==> IsOpen()
    {
      if Provided? {
        provider.ToggleSidebar();
      }
    }
  }
}
