/**
 * The layout shell (src/components/layout/MainAppLayout.tsx): a desktop
 * sidebar that is always present, and a mobile drawer governed by one flag,
 * which the header's menu button and the drawer's own controls flip.
 */
module MainAppLayout {
  import opened Wrappers
  import Sidebar

  /** The controls wired to the drawer flag. */
  datatype Control =
    | BackdropClick      // the drawer's backdrop: toggleMobileSidebar
    | CloseButtonClick   // the drawer's close button: toggleMobileSidebar
    | MobileLinkClick    // a link of the drawer's sidebar: closeMobileSidebar
    | HeaderMenuClick    // the header's menu button: toggleMobileSidebar

  /** Only the header button exists while the drawer is closed; the other three live inside the drawer. */
  predicate Reachable(open: bool, c: Control) {
    c == HeaderMenuClick || open
  }

  /** The flag after a control fires: toggled, or cleared for a link click. */
  function Step(open: bool, c: Control): (nowOpen: bool)
    ensures nowOpen <==> !open && c != MobileLinkClick
    ensures Reachable(open, c) && c != HeaderMenuClick ==> !nowOpen
  {
    match c
    case MobileLinkClick => false
    case _ => !open
  }

  /** Toggling twice restores the flag, and closing twice is the same as closing once. */
  lemma ToggleIsInvolutionCloseIdempotent(open: bool)
    ensures Step(Step(open, HeaderMenuClick), HeaderMenuClick) == open
    ensures Step(Step(open, MobileLinkClick), MobileLinkClick) == Step(open, MobileLinkClick) == false
  {
  }

  /** Every reachable control other than the menu button closes the drawer: the backdrop and close button toggle, but only while it is open. */
  lemma DrawerControlsClose(open: bool, c: Control)
    requires Reachable(open, c) && c != HeaderMenuClick
    ensures !Step(open, c)
  {
  }

  /** The flag after a sequence of controls, each reachable when it fires. */
  function Run(open: bool, cs: seq<Control>): bool
    decreases |cs|
  {
    if cs == [] then open else Run(Step(open, cs[0]), cs[1..])
  }

  predicate ReachableRun(open: bool, cs: seq<Control>)
    decreases |cs|
  {
    cs == [] || (Reachable(open, cs[0]) && ReachableRun(Step(open, cs[0]), cs[1..]))
  }

  /** The drawer is open after a run iff it ends with a press of the menu button that found it closed, or is empty and it was open. */
  lemma {:induction false} OpenAfterRun(open: bool, cs: seq<Control>)
    requires ReachableRun(open, cs)
    ensures Run(open, cs) <==>
      (if cs == [] then open else cs[|cs| - 1] == HeaderMenuClick && !Run(open, cs[..|cs| - 1]))
    decreases |cs|
  {
    if |cs| > 1 {
      assert cs[1..][..|cs[1..]| - 1] == cs[..|cs| - 1][1..];
      OpenAfterRun(Step(open, cs[0]), cs[1..]);
    }
  }

  /** What the shell renders: the desktop sidebar, and the drawer's sidebar while it is open. */
  datatype LayoutView = LayoutView(desktopNav: seq<Sidebar.NavLink>, mobileNav: Option<seq<Sidebar.NavLink>>)

  class Layout {
    /** The `activePath` prop, passed on to both sidebars. */
    const activePath: Option<string>
    var isMobileSidebarOpen: bool

    /** The drawer starts closed. */
    constructor (activePath: Option<string>)
      ensures this.activePath == activePath && !isMobileSidebarOpen
    {
      this.activePath := activePath;
      isMobileSidebarOpen := false;
    }

    method ToggleMobileSidebar()
      modifies this
      ensures isMobileSidebarOpen == !old(isMobileSidebarOpen)
    {
      isMobileSidebarOpen := !isMobileSidebarOpen;
    }

    method CloseMobileSidebar()
      modifies this
      ensures !isMobileSidebarOpen
    {
      isMobileSidebarOpen := false;
    }

    /** A control fires its callback; it must be on screen to be clicked. */
    method Fire(c: Control)
      requires Reachable(isMobileSidebarOpen, c)
      modifies this
      ensures isMobileSidebarOpen == Step(old(isMobileSidebarOpen), c)
      ensures c != HeaderMenuClick ==> !isMobileSidebarOpen
    {
      match c
      case BackdropClick => ToggleMobileSidebar();
      case CloseButtonClick => ToggleMobileSidebar();
      case MobileLinkClick => CloseMobileSidebar();
      case HeaderMenuClick => ToggleMobileSidebar();
    }

    /**
     * The drawer is rendered iff the flag is set; its sidebar gets the same
     * path as the desktop one, so both highlight the same entry, and only its
     * links carry the close handler.
     */
    method Render() returns (view: LayoutView)
      ensures view.mobileNav.Some? <==> isMobileSidebarOpen
      ensures view.desktopNav == Sidebar.RenderSidebar(activePath, false)
      ensures view.mobileNav.Some? ==> view.mobileNav.value == Sidebar.RenderSidebar(activePath, true)
      ensures view.mobileNav.Some? ==> (|view.mobileNav.value| == |view.desktopNav| &&
        forall i :: 0 <= i < |view.desktopNav| ==>
          view.mobileNav.value[i].item == view.desktopNav[i].item &&
          view.mobileNav.value[i].isActive == view.desktopNav[i].isActive)
    {
      var desktop := Sidebar.RenderSidebar(activePath, false);
      var mobile := if isMobileSidebarOpen then Some(Sidebar.RenderSidebar(activePath, true)) else None;
      view := LayoutView(desktop, mobile);
    }
  }
}
