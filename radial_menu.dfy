/**
  The navigation menu: four fixed entries, a mobile mode below a width breakpoint with a panel
  that opens and closes, and a desktop mode that places the entries on a half circle around a
  centre that is either the go-up button or a decorative hub.

  The menu does not change the page itself: its handlers invoke callbacks supplied by the layout.
  Each handler here returns the callback it invokes, and the layout applies it.
*/
module Radial {

  datatype MenuItem = MenuItem(id: string, title: string)

  /** `menuItems`, in display order. */
  const MenuItems: seq<MenuItem> := [
    MenuItem("home", "Inicio"),
    MenuItem("projects", "Proyectos"),
    MenuItem("team", "Equipo"),
    MenuItem("about", "Empresa")
  ]

  /** The ids of the menu entries. */
  function MenuIds(): (r: seq<string>)
    ensures |r| == |MenuItems| && forall i :: 0 <= i < |r| ==> r[i] == MenuItems[i].id
    ensures r == ["home", "projects", "team", "about"]
  {
    seq(|MenuItems|, i requires 0 <= i < |MenuItems| => MenuItems[i].id)
  }

  lemma MenuIdsDistinct()
    ensures forall i, j :: 0 <= i < j < |MenuItems| ==> MenuItems[i].id != MenuItems[j].id
  {
  }

  /** A call the menu makes into the layout: `onNavigate(section)` or `onGoUp()`. */
  datatype Callback = Navigate(section: string) | GoUp

  /** `checkMobile`: the window is narrower than 768 pixels. */
  predicate IsMobileWidth(width: int) {
    width < 768
  }

  /** The breakpoint: 767 is mobile, 768 and wider are desktop. */
  lemma MobileBreakpoint(width: int)
    ensures IsMobileWidth(width) <==> width <= 767
    ensures !IsMobileWidth(768)
  {
  }

  class MenuState {
    var isMobile: bool
    var isOpen: bool

    /** Both flags start false; the first `checkMobile` runs once the menu is mounted. */
    constructor ()
      ensures !isMobile && !isOpen
    {
      isMobile := false;
      isOpen := false;
    }

    /** `checkMobile`, run on mount and on every resize: only the mode changes. */
    method CheckMobile(width: int)
      modifies this
      ensures isMobile == IsMobileWidth(width)
      ensures isOpen == old(isOpen)
    {
      isMobile := IsMobileWidth(width);
    }

    /** The floating button of the mobile mode flips the panel. */
    method Toggle()
      modifies this
      ensures isOpen == !old(isOpen)
      ensures isMobile == old(isMobile)
    {
      isOpen := !isOpen;
    }

    /** A click on the backdrop around the open panel closes it. */
    method CloseFromBackdrop()
      modifies this
      ensures !isOpen
      ensures isMobile == old(isMobile)
    {
      isOpen := false;
    }

    /** An entry of the open mobile panel: navigates to the entry, then closes the panel. */
    method ChooseMobileEntry(index: nat) returns (cb: Callback)
      requires index < |MenuItems|
      modifies this
      ensures cb == Navigate(MenuItems[index].id)
      ensures !isOpen && isMobile == old(isMobile)
    {
      cb := Navigate(MenuItems[index].id);
      isOpen := false;
    }

    /** The go-up button of the open mobile panel (shown only with `showGoUp`): goes up, then closes the panel. */
    method GoUpMobile() returns (cb: Callback)
      modifies this
      ensures cb == GoUp
      ensures !isOpen && isMobile == old(isMobile)
    {
      cb := GoUp;
      isOpen := false;
    }

    /** An entry on the desktop half circle (a click, Enter or Space): navigates, nothing else changes. */
    method ChooseDesktopEntry(index: nat) returns (cb: Callback)
      requires index < |MenuItems|
      ensures cb == Navigate(MenuItems[index].id)
    {
      cb := Navigate(MenuItems[index].id);
    }

    /** The desktop go-up button (shown only with `showGoUp`): goes up, nothing else changes. */
    method GoUpDesktop() returns (cb: Callback)
      ensures cb == GoUp
    {
      cb := GoUp;
    }
  }

  // ---- The desktop half circle ----

  const StartAngle: real := 0.0
  const EndAngle: real := 180.0

  /** `angleStep`: the span divided into `menuItems.length - 1` equal steps. */
  function AngleStep(): (r: real)
    ensures r == 60.0
  {
    (EndAngle - StartAngle) / ((|MenuItems| - 1) as real)
  }

  /** The angle, in degrees from the top, of the entry at `index`. */
  function Angle(index: nat): (r: real)
    ensures r == 60.0 * (index as real)
  {
    StartAngle + (index as real) * AngleStep()
  }

  /** The first entry is at the top, the last at the bottom, and the angles grow by equal steps. */
  lemma AnglesSpanHalfCircle()
    ensures Angle(0) == StartAngle
    ensures Angle(|MenuItems| - 1) == EndAngle
    ensures forall i, j :: 0 <= i < j < |MenuItems| ==> Angle(i) < Angle(j)
    ensures forall i :: 0 <= i < |MenuItems| - 1 ==> Angle(i + 1) - Angle(i) == AngleStep()
  {
  }

  // ---- What the menu renders ----

  datatype Entry = Entry(id: string, title: string, highlighted: bool)

  /** An entry of the desktop half circle, with its angle. */
  datatype PlacedEntry = PlacedEntry(entry: Entry, angle: real)

  datatype MenuView =
    | MobileView(panelOpen: bool, panelGoUp: bool, panelEntries: seq<Entry>)
    | DesktopView(entries: seq<PlacedEntry>, goUpButton: bool, hub: bool)

  /** The menu entries, each highlighted when its id is the active section. */
  function Entries(activeSection: string): (r: seq<Entry>)
    ensures |r| == |MenuItems|
    ensures forall i :: 0 <= i < |r| ==> r[i].id == MenuItems[i].id && r[i].title == MenuItems[i].title
    ensures forall i :: 0 <= i < |r| ==> (r[i].highlighted <==> MenuItems[i].id == activeSection)
  {
    seq(|MenuItems|, i requires 0 <= i < |MenuItems| =>
      Entry(MenuItems[i].id, MenuItems[i].title, MenuItems[i].id == activeSection))
  }

  /** At most one entry is highlighted, and exactly one when the active section is a menu id. */
  lemma OneEntryHighlighted(activeSection: string)
    ensures forall i, j :: 0 <= i < j < |MenuItems| ==> !(Entries(activeSection)[i].highlighted && Entries(activeSection)[j].highlighted)
    ensures (exists i :: 0 <= i < |MenuItems| && Entries(activeSection)[i].highlighted) <==> activeSection in MenuIds()
  {
    MenuIdsDistinct();
    var ids := MenuIds();
    if activeSection in ids {
      var i :| 0 <= i < |ids| && ids[i] == activeSection;
      assert Entries(activeSection)[i].highlighted;
    }
  }

  /**
    The menu as rendered: in mobile mode the toggle button and, when open, the panel with the
    go-up button (only with `showGoUp`) and the entries; on desktop the placed entries and, in the
    centre, the go-up button when `showGoUp` and the hub otherwise.
  */
  function Render(m: MenuState, activeSection: string, showGoUp: bool): (v: MenuView)
    reads m
    ensures v.MobileView? <==> m.isMobile
    ensures v.MobileView? ==> v.panelOpen == m.isOpen
    ensures v.MobileView? && v.panelOpen ==> v.panelGoUp == showGoUp && v.panelEntries == Entries(activeSection)
    ensures v.MobileView? && !v.panelOpen ==> !v.panelGoUp && v.panelEntries == []
    ensures v.DesktopView? ==> v.goUpButton == showGoUp && v.hub == !showGoUp
    ensures v.DesktopView? ==> |v.entries| == |MenuItems|
    ensures v.DesktopView? ==> forall i :: 0 <= i < |v.entries| ==>
              v.entries[i].entry == Entries(activeSection)[i] && v.entries[i].angle == Angle(i)
  {
    if m.isMobile then
      if m.isOpen then MobileView(true, showGoUp, Entries(activeSection)) else MobileView(false, false, [])
    else
      var es := Entries(activeSection);
      DesktopView(seq(|es|, i requires 0 <= i < |es| => PlacedEntry(es[i], Angle(i))), showGoUp, !showGoUp)
  }

  /** On desktop exactly one of the go-up button and the hub is in the centre. */
  lemma DesktopCentreExclusive(m: MenuState, activeSection: string, showGoUp: bool)
    requires !m.isMobile
    ensures Render(m, activeSection, showGoUp).goUpButton != Render(m, activeSection, showGoUp).hub
  {
  }
}
