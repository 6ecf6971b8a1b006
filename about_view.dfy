/**
  The state of the company ("about") view: the loaded sections, the loading flag and the
  selection (section, item), changed by the loader and by the click handlers.
*/
module AboutSection {
  import opened Wrappers
  import opened MockApi
  import opened Selection

  class AboutView {
    var sections: seq<CompanySection>
    var loading: bool
    var selectedSection: string
    var activeItem: int

    /** The initial state: nothing loaded yet, section `'1'`, item 1. */
    constructor ()
      ensures sections == [] && loading
      ensures selectedSection == "1" && activeItem == 1
    {
      sections := [];
      loading := true;
      selectedSection := "1";
      activeItem := 1;
    }

    /** `currentSection` */
    function Current(): (r: Option<CompanySection>)
      reads this
      ensures r.Some? ==> r.value in sections && r.value.id == selectedSection
      ensures r.None? <==> forall s :: s in sections ==> s.id != selectedSection
    {
      SectionById(sections, selectedSection)
    }

    /** `currentItem` */
    function Item(): (r: Option<CompanyItem>)
      reads this
      ensures r.Some? ==> Current().Some? && r.value in Current().value.items && r.value.id == activeItem
      ensures r.None? <==> Current().None? || forall it :: it in Current().value.items ==> it.id != activeItem
    {
      CurrentItem(Current(), activeItem)
    }

    /** The items listed under the section at `index`: only the selected section is expanded. */
    function ListedItems(index: nat): (r: seq<CompanyItem>)
      requires index < |sections|
      reads this
      ensures sections[index].id == selectedSection ==> r == sections[index].items
      ensures sections[index].id != selectedSection ==> r == []
    {
      ExpandedChildren(sections[index].id, selectedSection, sections[index].items)
    }

    /**
      The loader: the fetched sections are stored when the fetch delivers them (`Some`), and
      `loading` is cleared in the `finally` block whether or not it did.
    */
    method Load(outcome: Option<seq<CompanySection>>)
      modifies this
      ensures sections == if outcome.Some? then outcome.value else old(sections)
      ensures !loading
      ensures selectedSection == old(selectedSection) && activeItem == old(activeItem)
    {
      if outcome.Some? {
        sections := outcome.value;
      }
      loading := false;
    }

    /**
      A section button: selects the section and goes back to item 1, also when it was already
      selected. On well-formed data that item is the section's first one.
    */
    method SelectSection(id: string)
      modifies this
      ensures selectedSection == id && activeItem == 1
      ensures sections == old(sections) && loading == old(loading)
      ensures WellFormedSections(sections) && Current().Some? ==> Item() == Some(Current().value.items[0])
      ensures forall i :: 0 <= i < |sections| && |ListedItems(i)| > 0 ==> sections[i].id == id
    {
      selectedSection := id;
      activeItem := 1;
      if WellFormedSections(sections) && Current().Some? {
        ResetItemIsFound(sections, id);
      }
    }

    /**
      An item button: only the active item changes. For items numbered 1..n the `id`-th item
      becomes the current one.
    */
    method SelectItem(id: int)
      modifies this
      ensures activeItem == id
      ensures sections == old(sections) && loading == old(loading) && selectedSection == old(selectedSection)
      ensures Current() == old(Current())
      ensures Current().Some? && ItemsNumbered(Current().value.items) && 1 <= id <= |Current().value.items|
              ==> Item() == Some(Current().value.items[id - 1])
    {
      activeItem := id;
      if Current().Some? && ItemsNumbered(Current().value.items) {
        ItemByIdOfNumbered(Current().value.items, id);
      }
    }
  }

  /** The view mounted and loaded from the fixtures shows the first section's first item. */
  method MountWithFixtures() returns (v: AboutView)
    ensures fresh(v)
    ensures !v.loading && v.sections == GetCompanySections()
    ensures v.Item() == Some(GetCompanySections()[0].items[0])
  {
    v := new AboutView();
    var data := GetCompanySections();
    v.Load(Some(data));
    DefaultSectionSelectionResolves(data);
  }
}
