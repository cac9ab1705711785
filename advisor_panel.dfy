/** The advisor directory page's state: the fetched list, the list on
    screen, the applied filter record, the record being edited in the
    filter panel, and the panel's open menus. Each handler also runs the
    effects its state change triggers: the filter effect recomputes the
    list on screen whenever `filters` or `advisors` is replaced, and the
    sync effect copies `filters` into `tempFilters` whenever `filters` is
    replaced. */
module AdvisorPanel {
  import opened Common
  import opened AdvisorFilter

  /** `showFilterPanel` and the four drop-down flags. */
  datatype Panel = Panel(open: bool, languageSelect: bool, designationSelect: bool, officeSelect: bool, groupSelect: bool)

  /** The four drop-down menus of the filter panel. */
  datatype Menu = OfficeMenu | LanguageMenu | DesignationMenu | GroupMenu

  /** What the advisor request gave: a JSON body, with or without an
      `advisors` field, or a failure. */
  datatype Response = Body(advisors: Option<seq<Advisor>>) | Failed

  /** The panel with every drop-down closed. */
  function MenusClosed(p: Panel): (r: Panel)
    ensures r.open == p.open
    ensures !r.languageSelect && !r.designationSelect && !r.officeSelect && !r.groupSelect
  {
    p.(languageSelect := false, designationSelect := false, officeSelect := false, groupSelect := false)
  }

  /** The panel with one drop-down flipped and the rest as they were. */
  function Flip(p: Panel, m: Menu): (r: Panel)
    ensures r.open == p.open
    ensures r.officeSelect == (p.officeSelect != (m == OfficeMenu))
    ensures r.languageSelect == (p.languageSelect != (m == LanguageMenu))
    ensures r.designationSelect == (p.designationSelect != (m == DesignationMenu))
    ensures r.groupSelect == (p.groupSelect != (m == GroupMenu))
  {
    match m
    case OfficeMenu => p.(officeSelect := !p.officeSelect)
    case LanguageMenu => p.(languageSelect := !p.languageSelect)
    case DesignationMenu => p.(designationSelect := !p.designationSelect)
    case GroupMenu => p.(groupSelect := !p.groupSelect)
  }

  class AdvisorsPage {
    var advisors: seq<Advisor>
    var filteredAdvisors: seq<Advisor>
    var filters: Filters
    var tempFilters: Filters
    var loading: bool
    var panel: Panel

    /** After every handler and its effects, the list on screen holds the
        fetched advisors that match the applied record, in fetched order. */
    ghost predicate Valid()
      reads this
    {
      filteredAdvisors == Shown(filters, advisors)
    }

    /** The first render and its effects: nothing fetched yet. */
    constructor ()
      ensures Valid()
      ensures advisors == [] && filteredAdvisors == [] && loading
      ensures filters == Cleared() && tempFilters == Cleared()
      ensures panel == Panel(false, false, false, false, false)
    {
      advisors := [];
      filteredAdvisors := [];
      filters := Cleared();
      tempFilters := Cleared();
      loading := true;
      panel := Panel(false, false, false, false, false);
    }

    /** The filter effect: a copy of the list narrowed step by step. */
    method FilterEffect()
      modifies this
      ensures Valid()
      ensures advisors == old(advisors) && filters == old(filters) && tempFilters == old(tempFilters)
      ensures loading == old(loading) && panel == old(panel)
    {
      filteredAdvisors := FilterInSteps(filters, advisors);
    }

    /** The fetch on mount resolves. A body with an advisor list replaces
        the list (and the filter effect runs on it); any outcome ends the
        loading state. */
    method LoadAdvisors(response: Response)
      requires Valid()
      modifies this
      ensures Valid()
      ensures advisors == (if response.Body? && response.advisors.Some? then response.advisors.value else old(advisors))
      ensures filters == old(filters) && tempFilters == old(tempFilters) && panel == old(panel)
      ensures !loading
    {
      loading := false;
      if response.Body? && response.advisors.Some? {
        advisors := response.advisors.value;
        filteredAdvisors := response.advisors.value;
        FilterEffect();
      }
    }

    /** The Filter button: the panel opens on a copy of the applied record
        with every drop-down closed. */
    method OpenFilterPanel()
      requires Valid()
      modifies this
      ensures Valid()
      ensures tempFilters == filters && panel == MenusClosed(old(panel)).(open := true)
      ensures advisors == old(advisors) && filteredAdvisors == old(filteredAdvisors)
      ensures filters == old(filters) && loading == old(loading)
    {
      tempFilters := filters;
      panel := MenusClosed(panel).(open := true);
    }

    /** The panel's back and close buttons. */
    method CloseFilterPanel()
      requires Valid()
      modifies this
      ensures Valid()
      ensures panel == old(panel).(open := false)
      ensures advisors == old(advisors) && filteredAdvisors == old(filteredAdvisors)
      ensures filters == old(filters) && tempFilters == old(tempFilters) && loading == old(loading)
    {
      panel := panel.(open := false);
    }

    /** A drop-down header: opens or closes that menu. */
    method ToggleMenu(m: Menu)
      requires Valid()
      modifies this
      ensures Valid()
      ensures panel == Flip(old(panel), m)
      ensures advisors == old(advisors) && filteredAdvisors == old(filteredAdvisors)
      ensures filters == old(filters) && tempFilters == old(tempFilters) && loading == old(loading)
    {
      panel := Flip(panel, m);
    }

    /** `handleOfficeSelect`: only the edited office changes, and its menu closes. */
    method OfficeSelect(office: string)
      requires Valid()
      modifies this
      ensures Valid()
      ensures tempFilters == old(tempFilters).(office := office)
      ensures panel == old(panel).(officeSelect := false)
      ensures advisors == old(advisors) && filteredAdvisors == old(filteredAdvisors)
      ensures filters == old(filters) && loading == old(loading)
    {
      tempFilters := tempFilters.(office := office);
      panel := panel.(officeSelect := false);
    }

    /** `handleGroupSelect`: only the edited group changes, and its menu closes. */
    method GroupSelect(group: string)
      requires Valid()
      modifies this
      ensures Valid()
      ensures tempFilters == old(tempFilters).(group := group)
      ensures panel == old(panel).(groupSelect := false)
      ensures advisors == old(advisors) && filteredAdvisors == old(filteredAdvisors)
      ensures filters == old(filters) && loading == old(loading)
    {
      tempFilters := tempFilters.(group := group);
      panel := panel.(groupSelect := false);
    }

    /** `handleLanguageSelect`: only the edited language changes, and its menu closes. */
    method LanguageSelect(lang: string)
      requires Valid()
      modifies this
      ensures Valid()
      ensures tempFilters == old(tempFilters).(language := lang)
      ensures panel == old(panel).(languageSelect := false)
      ensures advisors == old(advisors) && filteredAdvisors == old(filteredAdvisors)
      ensures filters == old(filters) && loading == old(loading)
    {
      tempFilters := tempFilters.(language := lang);
      panel := panel.(languageSelect := false);
    }

    /** `handleDesignationSelect`: only the edited specialty changes, and
        its menu closes. */
    method DesignationSelect(spec: string)
      requires Valid()
      modifies this
      ensures Valid()
      ensures tempFilters == old(tempFilters).(specialty := spec)
      ensures panel == old(panel).(designationSelect := false)
      ensures advisors == old(advisors) && filteredAdvisors == old(filteredAdvisors)
      ensures filters == old(filters) && loading == old(loading)
    {
      tempFilters := tempFilters.(specialty := spec);
      panel := panel.(designationSelect := false);
    }

    /** The handlers below run the filter effect last; the sync effect
        writes only `tempFilters`, which the filter effect does not read, so
        the order of the two does not change the final state. */

    /** `handleApplyFilters`: the edited record becomes the applied one,
        the panel closes, and the list on screen follows. */
    method ApplyFilters()
      requires Valid()
      modifies this
      ensures Valid()
      ensures filters == old(tempFilters) && tempFilters == old(tempFilters)
      ensures panel == old(panel).(open := false)
      ensures advisors == old(advisors) && loading == old(loading)
    {
      filters := tempFilters;
      panel := panel.(open := false);
      tempFilters := filters;
      FilterEffect();
    }

    /** `handleClearAll`: both records return to the defaults, every menu
        closes, the panel stays as it is, and the whole list is shown. */
    method ClearAll()
      requires Valid()
      modifies this
      ensures Valid()
      ensures filters == Cleared() && tempFilters == Cleared()
      ensures filteredAdvisors == advisors
      ensures panel == MenusClosed(old(panel))
      ensures advisors == old(advisors) && loading == old(loading)
    {
      tempFilters := Cleared();
      filters := Cleared();
      panel := MenusClosed(panel);
      tempFilters := filters;
      FilterEffect();
      ClearedShowsAll(advisors);
      FilterAdvisorsIsShown(Cleared(), advisors);
    }

    /** Typing in the name search: only the applied name changes, and the
        sync effect then discards any unapplied edits in the panel. */
    method EditAgentName(text: string)
      requires Valid()
      modifies this
      ensures Valid()
      ensures filters == old(filters).(agentName := text) && tempFilters == filters
      ensures advisors == old(advisors) && loading == old(loading) && panel == old(panel)
    {
      filters := filters.(agentName := text);
      tempFilters := filters;
      FilterEffect();
    }
  }
}
