/**
  The page layout: which section is shown, the handlers the menu calls back into, and the
  lookup of the section to render by its key.
*/
module MainLayout {
  import opened Wrappers
  import opened Radial

  /** The page components the `sections` record holds. */
  datatype Page = HomePage | ProjectsPage | TeamPage | AboutPage

  /** The `sections` record, keyed by section name. */
  const Sections: map<string, Page> := map["home" := HomePage, "projects" := ProjectsPage, "team" := TeamPage, "about" := AboutPage]

  /** `sections[activeSection]`: the page for a key of the record, nothing for any other key. */
  function RenderedSection(key: string): (r: Option<Page>)
    ensures r.Some? <==> key in MenuIds()
    ensures r.Some? ==> r.value == Sections[key]
  {
    if key in Sections then Some(Sections[key]) else None
  }

  /** The record's keys are exactly the menu ids, and distinct ids render distinct pages. */
  lemma SectionsMatchMenu()
    ensures Sections.Keys == set i | 0 <= i < |MenuItems| :: MenuItems[i].id
    ensures forall i, j :: 0 <= i < |MenuItems| && 0 <= j < |MenuItems| && i != j ==>
              RenderedSection(MenuItems[i].id) != RenderedSection(MenuItems[j].id)
  {
    var ids := set i | 0 <= i < |MenuItems| :: MenuItems[i].id;
    assert MenuItems[0].id in ids && MenuItems[1].id in ids && MenuItems[2].id in ids && MenuItems[3].id in ids;
  }

  /** `showGoUp`: the go-up control is offered everywhere but on the home section, that is, whenever the page shown is not the home page. */
  predicate ShowGoUp(activeSection: string): (r: bool)
    ensures r <==> RenderedSection(activeSection) != Some(HomePage)
  {
    activeSection != "home"
  }

  class Layout {
    var activeSection: string
    var processStep: int

    /** The page opens on the home section, at process step 1, without the go-up control. */
    constructor ()
      ensures activeSection == "home" && processStep == 1
      ensures !ShowGoUp(activeSection)
    {
      activeSection := "home";
      processStep := 1;
    }

    /** `handleNavigate` */
    method HandleNavigate(section: string)
      modifies this
      ensures activeSection == section && processStep == old(processStep)
      ensures ShowGoUp(activeSection) <==> section != "home"
    {
      activeSection := section;
    }

    /** `handleGoUp`: back to the home section, which hides the go-up control. */
    method HandleGoUp()
      modifies this
      ensures activeSection == "home" && processStep == old(processStep)
      ensures !ShowGoUp(activeSection)
      ensures RenderedSection(activeSection) == Some(HomePage)
    {
      activeSection := "home";
    }

    /** `handleProcessStepChange` */
    method HandleProcessStepChange(step: int)
      modifies this
      ensures processStep == step && activeSection == old(activeSection)
    {
      processStep := step;
    }

    /** Runs the callback the menu invoked. */
    method Apply(cb: Callback)
      modifies this
      ensures cb.Navigate? ==> activeSection == cb.section
      ensures cb.GoUp? ==> activeSection == "home"
      ensures processStep == old(processStep)
    {
      match cb
      case Navigate(s) => HandleNavigate(s);
      case GoUp => HandleGoUp();
    }
  }

  /**
    Choosing an entry in the open mobile panel: the layout shows that entry's section, the
    panel is closed, and the entry is the only one highlighted.
  */
  method ChooseFromMobilePanel(layout: Layout, menu: MenuState, index: nat)
    requires menu.isMobile && menu.isOpen && index < |MenuItems|
    modifies layout, menu
    ensures layout.activeSection == MenuItems[index].id && layout.processStep == old(layout.processStep)
    ensures RenderedSection(layout.activeSection).Some?
    ensures !menu.isOpen && menu.isMobile
    ensures forall i :: 0 <= i < |MenuItems| ==> (Entries(layout.activeSection)[i].highlighted <==> i == index)
  {
    var cb := menu.ChooseMobileEntry(index);
    layout.Apply(cb);
    MenuIdsDistinct();
    forall i | 0 <= i < |MenuItems| ensures Entries(layout.activeSection)[i].highlighted <==> i == index {
      if i < index || index < i {
        assert MenuItems[i].id != MenuItems[index].id;
      }
    }
  }

  /** The go-up button of the open mobile panel: home is shown and the panel is closed. */
  method GoUpFromMobilePanel(layout: Layout, menu: MenuState)
    requires menu.isMobile && menu.isOpen && ShowGoUp(layout.activeSection)
    modifies layout, menu
    ensures layout.activeSection == "home" && !ShowGoUp(layout.activeSection)
    ensures layout.processStep == old(layout.processStep)
    ensures !menu.isOpen && menu.isMobile
  {
    var cb := menu.GoUpMobile();
    layout.Apply(cb);
  }
}
